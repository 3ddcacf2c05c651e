/** The packet accessor (class SocketPacket): an indexed view of a
    packet's data array, `[path, user data, ack]`, with setters that write
    into that array in place. */
module Packets {
  import opened Values

  /** A JavaScript array object; packets share it by reference. */
  class DataArray {
    var items: seq<Value>

    constructor (items: seq<Value>)
      ensures this.items == items
    {
      this.items := items;
    }
  }

  /** A packet as the transport delivers it (SocketIO.Packet). */
  datatype IoPacket = IoPacket(packetType: Value, nsp: Value, id: Value, data: DataArray)

  class SocketPacket {
    /** The packet's `type` field. */
    var packetType: Value
    var nsp: Value
    var id: Value
    var data: DataArray

    /** A fresh packet has a new, empty data array and no other field set. */
    constructor ()
      ensures fresh(data) && data.items == []
      ensures packetType == Undefined && nsp == Undefined && id == Undefined
    {
      packetType, nsp, id := Undefined, Undefined, Undefined;
      data := new DataArray([]);
    }

    /** Copies type, data, nsp and id; the data array is shared with sioPacket, not copied. */
    static method FromSocketIOPacket(sioPacket: IoPacket) returns (socketPacket: SocketPacket)
      ensures fresh(socketPacket)
      ensures socketPacket.packetType == sioPacket.packetType && socketPacket.nsp == sioPacket.nsp
      ensures socketPacket.id == sioPacket.id
      ensures socketPacket.data == sioPacket.data
    {
      socketPacket := new SocketPacket();
      socketPacket.packetType := sioPacket.packetType;
      socketPacket.data := sioPacket.data;
      socketPacket.nsp := sioPacket.nsp;
      socketPacket.id := sioPacket.id;
    }

    function GetRoutePath(): Value
      reads this, data
    {
      At(data.items, 0)
    }

    function GetUserData(): Value
      reads this, data
    {
      At(data.items, 1)
    }

    function GetAck(): Value
      reads this, data
    {
      At(data.items, 2)
    }

    /** data[0] = newPath: the path reads back, every other index is kept. */
    method SetRoutePath(newPath: string) returns (self: SocketPacket)
      modifies data
      ensures self == this
      ensures data.items == Store(old(data.items), 0, Str(newPath))
      ensures GetRoutePath() == Str(newPath)
      ensures forall j: nat :: j != 0 ==> At(data.items, j) == At(old(data.items), j)
    {
      data.items := Store(data.items, 0, Str(newPath));
      forall j: nat {
        StoreAt(old(data.items), 0, Str(newPath), j);
      }
      return this;
    }

    /** data[1] = newData: the user data reads back, the path, the ack and every other index are kept. */
    method SetUserData(newData: Value) returns (self: SocketPacket)
      modifies data
      ensures self == this
      ensures data.items == Store(old(data.items), 1, newData)
      ensures GetUserData() == newData
      ensures forall j: nat :: j != 1 ==> At(data.items, j) == At(old(data.items), j)
      ensures GetRoutePath() == old(GetRoutePath()) && GetAck() == old(GetAck())
    {
      data.items := Store(data.items, 1, newData);
      forall j: nat {
        StoreAt(old(data.items), 1, newData, j);
      }
      return this;
    }
  }

  /** Writing through a packet made by FromSocketIOPacket changes the
      transport packet's data too: the two share one array. */
  method SharedDataClient(sioPacket: IoPacket, newPath: string)
    modifies sioPacket.data
    ensures At(sioPacket.data.items, 0) == Str(newPath)
    ensures At(sioPacket.data.items, 1) == At(old(sioPacket.data.items), 1)
  {
    var packet := SocketPacket.FromSocketIOPacket(sioPacket);
    var self := packet.SetRoutePath(newPath);
  }
}
