/** The JSON request body: a resumable sender that is asked for bytes in buffers of any
    size and starts over when the request is sent again. */
module JsonBody {

  type Byte = bv8

  function Take(s: seq<Byte>, n: nat): seq<Byte> { if n < |s| then s[..n] else s }

  function Drop(s: seq<Byte>, n: nat): seq<Byte> { if n < |s| then s[n..] else [] }

  /** The bytes handed out for a buffer of the given length. */
  function Piece(json: seq<Byte>, offset: nat, length: nat): seq<Byte> {
    Take(Drop(json, offset), length)
  }

  class JsonSender {
    const json: seq<Byte>
    var offset: nat

    constructor (json: seq<Byte>)
      ensures this.json == json && offset == 0
    {
      this.json, this.offset := json, 0;
    }

    /** The buffer has room for `length` bytes, or is missing. */
    method OnDataSend(data: array?<Byte>, length: nat) returns (n: nat)
      requires data != null ==> length <= data.Length
      modifies this, data
      ensures data == null ==> n == 0 && offset == old(offset)
      ensures data != null ==>
                && n == |Piece(json, old(offset), length)| && offset == old(offset) + n
                && data[..n] == Piece(json, old(offset), length)
                && data[n..] == old(data[n..])
    {
      if data == null || length == 0 {
        return 0;
      }
      if offset >= |json| {
        return 0;
      }
      var remaining := |json| - offset;
      var copyLen := if remaining < length then remaining else length;
      var i := 0;
      while i < copyLen
        invariant 0 <= i <= copyLen
        invariant forall k :: 0 <= k < i ==> data[k] == json[offset + k]
        invariant data[copyLen..] == old(data[copyLen..])
        invariant offset == old(offset)
        modifies data
      {
        data[i] := json[offset + i];
        i := i + 1;
      }
      offset := offset + copyLen;
      return copyLen;
    }

    /** Runs at the start of every attempt. */
    method OnRequestStart()
      modifies this
      ensures offset == 0
    {
      offset := 0;
    }
  }

  // ----- one attempt -----

  function Sum(sizes: seq<nat>): nat
    decreases |sizes|
  {
    if sizes == [] then 0 else sizes[0] + Sum(sizes[1..])
  }

  /** Everything handed out for a sequence of buffers, of what is left of the JSON. */
  function Stream(left: seq<Byte>, sizes: seq<nat>): seq<Byte>
    decreases |sizes|
  {
    if sizes == [] then [] else Take(left, sizes[0]) + Stream(Drop(left, sizes[0]), sizes[1..])
  }

  /** Two pieces in a row are one piece of the length of both. */
  lemma TakesJoin(s: seq<Byte>, x: nat, y: nat)
    ensures Take(s, x) + Take(Drop(s, x), y) == Take(s, x + y)
  {
  }

  /** However the bytes are asked for, only how many matters. */
  lemma {:induction false} StreamIsTake(left: seq<Byte>, sizes: seq<nat>)
    ensures Stream(left, sizes) == Take(left, Sum(sizes))
    decreases |sizes|
  {
    if sizes != [] {
      StreamIsTake(Drop(left, sizes[0]), sizes[1..]);
      TakesJoin(left, sizes[0], Sum(sizes[1..]));
    }
  }

  /** For any buffer sizes the bytes handed out are the prefix of the JSON of that length:
      all of it once the sizes sum to its length. */
  lemma StreamIsPrefix(json: seq<Byte>, sizes: seq<nat>)
    ensures Stream(json, sizes) <= json && |Stream(json, sizes)| == if Sum(sizes) < |json| then Sum(sizes) else |json|
    ensures Sum(sizes) >= |json| ==> Stream(json, sizes) == json
  {
    StreamIsTake(json, sizes);
  }

  /** Once everything is handed out, further buffers get nothing. */
  lemma StreamEnds(json: seq<Byte>, sizes: seq<nat>, more: seq<nat>)
    requires Sum(sizes) >= |json|
    ensures Stream(json, sizes + more) == json
    ensures Stream(Drop(json, Sum(sizes)), more) == []
  {
    SumOfConcat(sizes, more);
    StreamIsTake(json, sizes + more);
    StreamIsTake(Drop(json, Sum(sizes)), more);
  }

  lemma {:induction false} SumOfConcat(a: seq<nat>, b: seq<nat>)
    ensures Sum(a + b) == Sum(a) + Sum(b)
    decreases |a|
  {
    if a == [] {
      assert a + b == b;
    } else {
      assert (a + b)[1..] == a[1..] + b;
      SumOfConcat(a[1..], b);
    }
  }

  /** A request of several attempts: each is drained with its own buffers, however far it
      gets, and each is started first. */
  method SendAttempts(json: seq<Byte>, attempts: seq<seq<nat>>) returns (sent: seq<seq<Byte>>)
    ensures |sent| == |attempts|
    ensures forall i :: 0 <= i < |sent| ==> sent[i] == Take(json, Sum(attempts[i]))
  {
    var sender := new JsonSender(json);
    sent := [];
    for i := 0 to |attempts|
      invariant |sent| == i && sender.json == json && fresh(sender)
      invariant forall k :: 0 <= k < i ==> sent[k] == Take(json, Sum(attempts[k]))
    {
      sender.OnRequestStart();
      var bytes := Drain(sender, attempts[i]);
      StreamIsTake(json, attempts[i]);
      sent := sent + [bytes];
    }
  }

  method Ask(sender: JsonSender, size: nat) returns (bytes: seq<Byte>)
    modifies sender
    ensures bytes == Piece(sender.json, old(sender.offset), size)
    ensures Drop(sender.json, sender.offset) == Drop(Drop(sender.json, old(sender.offset)), size)
  {
    var buffer := new Byte[size];
    var n := sender.OnDataSend(buffer, size);
    bytes := buffer[..n];
  }

  /** The next piece, and then the rest. */
  lemma StreamGoesOn(left: seq<Byte>, sizes: seq<nat>, i: nat, before: seq<Byte>)
    requires i < |sizes|
    ensures before + Stream(left, sizes[i..]) == (before + Take(left, sizes[i])) + Stream(Drop(left, sizes[i]), sizes[i + 1..])
  {
    assert sizes[i..][1..] == sizes[i + 1..];
    assert Stream(left, sizes[i..]) == Take(left, sizes[i]) + Stream(Drop(left, sizes[i]), sizes[i + 1..]);
  }

  method Drain(sender: JsonSender, sizes: seq<nat>) returns (bytes: seq<Byte>)
    modifies sender
    ensures bytes == Stream(Drop(sender.json, old(sender.offset)), sizes)
  {
    bytes := [];
    ghost var all := Stream(Drop(sender.json, sender.offset), sizes);
    for i := 0 to |sizes|
      invariant all == bytes + Stream(Drop(sender.json, sender.offset), sizes[i..])
    {
      StreamGoesOn(Drop(sender.json, sender.offset), sizes, i, bytes);
      var piece := Ask(sender, sizes[i]);
      bytes := bytes + piece;
    }
  }
}
