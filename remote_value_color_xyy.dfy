/**
  The remote value that ties the DPT 242.600 codec to one group address: `set`
  encodes a value and queues one GroupValueWrite telegram for the address;
  `process` decodes an incoming write for the address into the cached value, and
  leaves the cache alone when the telegram does not apply or does not decode.
 */
module RemoteValueColorXyy {
  import opened Wrappers
  import opened DptColor
  import DptColorProperties

  /** A KNX group address such as 1/2/3; only compared for equality. */
  datatype GroupAddress = GroupAddress(main: nat, middle: nat, sub: nat)

  /** The application-layer service a telegram carries. */
  datatype Apci = GroupValueWrite(value: Payload) | GroupValueRead

  datatype Telegram = Telegram(destinationAddress: GroupAddress, payload: Apci)

  /** The exception `get_nowait` raises on an empty queue. */
  datatype QueueError = QueueEmpty

  /** The outbound telegram queue (`xknx.telegrams`), first in, first out. */
  class TelegramQueue {
    var items: seq<Telegram>

    constructor ()
      ensures items == []
    {
      items := [];
    }

    function QSize(): (n: nat)
      reads this
      ensures n == |items|
    {
      |items|
    }

    method Put(t: Telegram)
      modifies this
      ensures items == old(items) + [t]
    {
      items := items + [t];
    }

    /** `get_nowait`: removes and returns the oldest telegram; fails with `QueueEmpty` on an empty queue. */
    method GetNowait() returns (r: Result<Telegram, QueueError>)
      modifies this
      ensures old(items) == [] ==> r == Failure(QueueEmpty) && items == []
      ensures old(items) != [] ==> r == Success(old(items)[0]) && items == old(items)[1..]
    {
      if items == [] {
        r := Failure(QueueEmpty);
      } else {
        r := Success(items[0]);
        items := items[1..];
      }
    }
  }

  /**
    A cached value has the form a decoded payload has, in dictionary form: both
    axes or neither, each axis a multiple of 1/0xFFFF in [0, 1], and a brightness
    in 0..255.
   */
  predicate ValidCache(cache: Option<XYYDict>) {
    cache.Some? ==>
      && cache.value.xAxis.Some? == cache.value.yAxis.Some?
      && (cache.value.xAxis.Some? ==> AxisInRange(cache.value.xAxis.value) && AxisInRange(cache.value.yAxis.value))
      && (cache.value.xAxis.Some? ==> OnGrid(cache.value.xAxis.value) && OnGrid(cache.value.yAxis.value))
      && (cache.value.brightness.Some? ==> 0 <= cache.value.brightness.value <= 255)
  }

  /** Whether `process` applies a telegram: a write to our address whose payload decodes. */
  predicate Applies(t: Telegram, address: GroupAddress) {
    && t.destinationAddress == address
    && t.payload.GroupValueWrite?
    && FromKnx(t.payload.value).Success?
  }

  class RemoteValueColorXYY {
    const telegrams: TelegramQueue
    const groupAddress: GroupAddress
    var value: Option<XYYDict>

    ghost predicate Valid()
      reads this
    {
      ValidCache(value)
    }

    constructor (queue: TelegramQueue, address: GroupAddress)
      ensures telegrams == queue && groupAddress == address
      ensures value == None && Valid()
    {
      telegrams := queue;
      groupAddress := address;
      value := None;
    }

    /** `set`: queues exactly one write telegram with the encoded payload, or fails and queues nothing. */
    method Set(v: XYYColor) returns (r: Result<(), DptError>)
      modifies telegrams
      ensures r.Success? <==> Encodable(v)
      ensures r.Failure? ==> r.error == CouldNotSerialize(v)
      ensures telegrams.items ==
        if r.Success? then old(telegrams.items) + [Telegram(groupAddress, GroupValueWrite(ToKnx(v).value))]
        else old(telegrams.items)
    {
      var encoded := ToKnx(v);
      if encoded.Failure? {
        r := Failure(encoded.error);
      } else {
        telegrams.Put(Telegram(groupAddress, GroupValueWrite(encoded.value)));
        r := Success(());
      }
    }

    /**
      `process`: applies a write to our address whose payload decodes, and reports
      whether it did; any other telegram leaves the cached value unchanged.
     */
    method Process(t: Telegram) returns (applied: bool)
      requires Valid()
      modifies this
      ensures Valid()
      ensures applied <==> Applies(t, groupAddress)
      ensures value == if applied then Some(ToDict(FromKnx(t.payload.value).value)) else old(value)
    {
      if t.destinationAddress != groupAddress || !t.payload.GroupValueWrite? {
        return false;
      }
      var decoded := FromKnx(t.payload.value);
      if decoded.Failure? {
        return false;
      }
      DptColorProperties.FromKnxPresence(t.payload.value);
      value := Some(ToDict(decoded.value));
      applied := true;
    }
  }

  /** Two `set` calls, each followed by `get_nowait`, each yield one telegram with the encoded octets. */
  method SetScenario() {
    DptColorProperties.EncodeVectors();
    var queue := new TelegramQueue();
    var address := GroupAddress(1, 2, 3);
    var remote := new RemoteValueColorXYY(queue, address);

    var r := remote.Set(XYYColor(Some((1.0, 0.9)), Some(102)));
    assert r.Success? && queue.QSize() == 1;
    var t := queue.GetNowait();
    assert t == Success(Telegram(address, GroupValueWrite(DptArray([0xFF, 0xFF, 0xE6, 0x66, 0x66, 0x03]))));

    r := remote.Set(XYYColor(Some((1.0, 0.9)), Some(255)));
    assert r.Success? && queue.QSize() == 1;
    t := queue.GetNowait();
    assert t == Success(Telegram(address, GroupValueWrite(DptArray([0xFF, 0xFF, 0xE6, 0x66, 0xFF, 0x03]))));

    r := remote.Set(XYYColor(Some((0.3, 0.5)), Some(256)));
    assert r.Failure? && queue.QSize() == 0;
    t := queue.GetNowait();
    assert t == Failure(QueueEmpty);
  }

  /** A good write updates the cache; a binary payload or a short array is refused and the cache stays empty. */
  method ProcessScenario() {
    DptColorProperties.DecodeVectors();
    DptColorProperties.MaskAuthorityVector();
    var queue := new TelegramQueue();
    var address := GroupAddress(1, 2, 3);

    var remote := new RemoteValueColorXYY(queue, address);
    var ok := remote.Process(Telegram(address, GroupValueWrite(DptArray([0xFF, 0xFF, 0x66, 0x66, 0xFA, 0x03]))));
    assert ok && remote.value == Some(XYYDict(Some(1.0), Some(0.4), Some(250)));

    var other := new RemoteValueColorXYY(queue, address);
    ok := other.Process(Telegram(address, GroupValueWrite(DptBinary(1))));
    assert !ok;
    ok := other.Process(Telegram(address, GroupValueWrite(DptArray([0x64, 0x65, 0x66, 0x67]))));
    assert !ok;
    assert other.value == None;
  }
}
