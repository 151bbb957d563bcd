/** The native terminal client: input up to the first control byte, and complete output writes. */
module Terminal {

  import opened Prelude

  datatype Direction = Stay | GoNext | GoPrevious   // the source's None, "next", "previous"

  const DETACH: byte := 0x1d
  const NEXT: byte := 0x1e
  const PREVIOUS: byte := 0x1f

  predicate Control(b: byte) {
    b == DETACH || b == NEXT || b == PREVIOUS
  }

  function DirectionOf(b: byte): Direction {
    if b == NEXT then GoNext else if b == PREVIOUS then GoPrevious else Stay
  }

  /** Everything the user typed, however it was cut into chunks. */
  function Stream(chunks: seq<Bytes>): Bytes {
    if chunks == [] then [] else Stream(chunks[..|chunks| - 1]) + chunks[|chunks| - 1]
  }

  /** `p` is where the first control byte is, or the end. */
  ghost predicate FirstControl(s: Bytes, p: nat) {
    && p <= |s|
    && (forall k :: 0 <= k < p ==> !Control(s[k]))
    && (p < |s| ==> Control(s[p]))
  }

  /** Where the first control byte of the whole input is; its length if there is none. */
  function ControlAt(s: Bytes): (p: nat)
    ensures FirstControl(s, p)
    ensures forall q: nat :: FirstControl(s, q) ==> q == p
  {
    if s == [] then 0
    else
      var rest := ControlAt(s[..|s| - 1]);
      if rest < |s| - 1 then rest else if Control(s[|s| - 1]) then |s| - 1 else |s|
  }

  /** bytes.find */
  method Find(chunk: Bytes, b: byte) returns (index: int)
    ensures index < 0 ==> b !in chunk
    ensures index >= 0 ==> index < |chunk| && chunk[index] == b && b !in chunk[..index]
  {
    index := 0;
    while index < |chunk|
      invariant 0 <= index <= |chunk| && b !in chunk[..index]
    {
      if chunk[index] == b { return; }
      index := index + 1;
    }
    return -1;
  }

  method FirstOf(chunk: Bytes) returns (index: int, direction: Direction)
    ensures index < 0 ==> FirstControl(chunk, |chunk|)
    ensures index >= 0 ==> index < |chunk| && FirstControl(chunk, index) && direction == DirectionOf(chunk[index])
  {
    var detach := Find(chunk, DETACH);
    var next := Find(chunk, NEXT);
    var previous := Find(chunk, PREVIOUS);
    index, direction := detach, Stay;
    if next >= 0 && (index < 0 || next < index) { index, direction := next, GoNext; }
    if previous >= 0 && (index < 0 || previous < index) { index, direction := previous, GoPrevious; }
    if index >= 0 {
      forall k | 0 <= k < index ensures !Control(chunk[k]) {
        assert detach >= 0 ==> k >= detach || chunk[k] in chunk[..detach];
        assert next >= 0 ==> k >= next || chunk[k] in chunk[..next];
        assert previous >= 0 ==> k >= previous || chunk[k] in chunk[..previous];
      }
    }
  }

  /** What is sent, and the direction returned, depend on the typed bytes alone and not on how they
      were cut into chunks: the longest control-free prefix, then the first control byte's meaning. */
  method SendInput(chunks: seq<Bytes>) returns (sent: seq<Bytes>, direction: Direction)
    ensures Stream(sent) == Stream(chunks)[..ControlAt(Stream(chunks))]
    ensures direction == var s := Stream(chunks); if ControlAt(s) < |s| then DirectionOf(s[ControlAt(s)]) else Stay
    // 0x1e goes on, 0x1f goes back, 0x1d detaches; no control byte is sent, and everything before one is
    ensures var s, n := Stream(chunks), |Stream(sent)|;
            && n <= |s| && Stream(sent) == s[..n] && (forall k :: 0 <= k < n ==> s[k] < 0x1d || s[k] > 0x1f)
            && (n < |s| ==> 0x1d <= s[n] <= 0x1f)
            && (direction == GoNext <==> n < |s| && s[n] == 0x1e)
            && (direction == GoPrevious <==> n < |s| && s[n] == 0x1f)
  {
    sent := [];
    var k := 0;
    while k < |chunks|
      invariant 0 <= k <= |chunks|
      invariant Stream(sent) == Stream(chunks[..k]) && FirstControl(Stream(sent), |Stream(sent)|)
    {
      var chunk := chunks[k];
      var index, found := FirstOf(chunk);
      assert chunks[..k + 1][..k] == chunks[..k];
      if index >= 0 {
        ghost var p := |Stream(sent)| + index;
        StreamPrefix(chunks, k + 1);
        assert Stream(chunks)[..p] == Stream(sent) + chunk[..index];
        assert FirstControl(Stream(chunks), p) by { JoinControl(Stream(sent), chunk, Stream(chunks), index); }
        if index > 0 {
          StreamSnoc(sent, chunk[..index]);
          sent := sent + [chunk[..index]];
        }
        return sent, found;
      }
      StreamSnoc(sent, chunk);
      sent := sent + [chunk];
      k := k + 1;
    }
    assert chunks[..k] == chunks;
    assert Stream(chunks)[..|Stream(chunks)|] == Stream(chunks);
    return sent, Stay;
  }

  lemma StreamSnoc(chunks: seq<Bytes>, chunk: Bytes)
    ensures Stream(chunks + [chunk]) == Stream(chunks) + chunk
  {
    assert (chunks + [chunk])[..|chunks|] == chunks;
  }

  lemma {:induction false} StreamPrefix(chunks: seq<Bytes>, n: nat)
    requires n <= |chunks|
    ensures Stream(chunks[..n]) <= Stream(chunks)
    decreases |chunks|
  {
    if n == |chunks| {
      assert chunks[..n] == chunks;
    } else {
      assert chunks[..|chunks| - 1][..n] == chunks[..n];
      StreamPrefix(chunks[..|chunks| - 1], n);
    }
  }

  lemma JoinControl(sent: Bytes, chunk: Bytes, all: Bytes, index: nat)
    requires FirstControl(sent, |sent|) && FirstControl(chunk, index) && index < |chunk| && sent + chunk <= all
    ensures FirstControl(all, |sent| + index)
  {
    forall k | 0 <= k < |sent| + index ensures !Control(all[k]) {
      assert all[k] == (sent + chunk)[k];
    }
    assert all[|sent| + index] == (sent + chunk)[|sent| + index];
  }

  /** The answers of successive os.write calls: how many bytes each would take. */
  type Schedule = nat -> int

  /** The first `n` writes all make progress. */
  ghost predicate Progresses(writes: Schedule, n: nat) {
    forall i: nat :: i < n ==> writes(i) > 0
  }

  /** Bytes out of `size` taken by the first `n` writes; a write takes at most what is left. */
  function Taken(writes: Schedule, n: nat, size: nat): (t: nat)
    ensures t <= size
  {
    if n == 0 then 0
    else
      var t := Taken(writes, n - 1, size);
      if writes(n - 1) <= 0 then t else if writes(n - 1) < size - t then t + writes(n - 1) else size
  }

  /** Write one frame completely: for every schedule, the first `attempts - 1` writes make progress,
      and the loop raises exactly if some write makes none while bytes are left. */
  method WriteAll(data: Bytes, writes: Schedule) returns (emitted: Bytes, raised: bool, attempts: nat)
    ensures emitted == data[..Taken(writes, attempts, |data|)]
    ensures !raised ==> emitted == data && Progresses(writes, attempts)
    ensures raised ==> attempts > 0 && Progresses(writes, attempts - 1) && writes(attempts - 1) <= 0
    ensures raised ==> |emitted| < |data|
    ensures raised <==> exists n: nat :: Progresses(writes, n) && writes(n) <= 0 && Taken(writes, n, |data|) < |data|
  {
    var remaining := data;
    emitted, raised, attempts := [], false, 0;
    while remaining != []
      invariant emitted + remaining == data && |emitted| == Taken(writes, attempts, |data|)
      invariant Progresses(writes, attempts)
      decreases |remaining|
    {
      var written := writes(attempts);
      attempts := attempts + 1;
      if written <= 0 {
        return emitted, true, attempts;
      }
      var n := if written < |remaining| then written else |remaining|;
      emitted := emitted + remaining[..n];
      remaining := remaining[n..];
    }
    forall n: nat | Progresses(writes, n) && writes(n) <= 0 ensures Taken(writes, n, |data|) == |data| {
      assert n >= attempts;
      TakenGrows(writes, attempts, n, |data|);
    }
  }

  lemma {:induction false} TakenGrows(writes: Schedule, m: nat, n: nat, size: nat)
    requires m <= n
    ensures Taken(writes, m, size) <= Taken(writes, n, size)
  {
    if m < n { TakenGrows(writes, m, n - 1, size); }
  }
}
