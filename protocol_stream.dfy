/**
 * The std::istringstream reads the graphical client's handlers make. Each
 * `stream >> n` into an arithmetic variable has one of three outcomes:
 * a number is read; the text that follows the blanks is not a number, so
 * the stream fails and n is set to 0; or the stream had already failed or
 * holds nothing but blanks, so the stream fails and n keeps whatever it
 * held, which for the handlers' uninitialised locals is no value at all.
 */
module ProtocolStream {
  import opened Wrappers
  import opened CppInt
  import opened Text

  /** What one `stream >> n` leaves in n. */
  datatype Slot = Read(value: int) | Zeroed | Unset

  /** The value of a slot that holds one: a number read, or the 0 a failed conversion stores. */
  function Val(s: Slot): int
  {
    if s.Read? then s.value else 0
  }

  /** The value of a slot read into a size_t. */
  function SizeVal(s: Slot): nat
  {
    ToSize(Val(s))
  }

  /** Every slot holds a value, so the handler reads no uninitialised variable. */
  predicate Usable(sl: seq<Slot>)
  {
    forall i :: 0 <= i < |sl| ==> sl[i] != Unset
  }

  function Unsets(n: nat): (r: seq<Slot>)
    ensures |r| == n && forall i :: 0 <= i < n ==> r[i] == Unset
  {
    seq(n, _ => Unset)
  }

  /**
   * One `stream >> n` on a stream that still holds the text t (Some(t)) or
   * has failed (None): the stream afterwards and what n holds.
   */
  function Next(st: Option<string>): (r: (Option<string>, Slot))
    ensures r.0.Some? <==> r.1.Read?
    ensures r.0.Some? ==> st.Some? && |r.0.value| < |st.value|
    ensures st.None? ==> r.1 == Unset
  {
    match st
    case None => (None, Unset)
    case Some(t) =>
      if SkipSpaces(t) == [] then (None, Unset)
      else
        match ReadInt(t)
        case None => (None, Zeroed)
        case Some((v, rest)) => (Some(rest), Read(v))
  }

  /** A read succeeds exactly when ReadInt finds a number. */
  lemma NextReadInt(t: string)
    ensures Next(Some(t)).1.Read? <==> ReadInt(t).Some?
    ensures ReadInt(t).Some? ==> Next(Some(t)) == (Some(ReadInt(t).value.1), Read(ReadInt(t).value.0))
  {
    if SkipSpaces(t) == [] {
      assert ReadDigits(SkipSpaces(t)) == None;
    }
  }

  /** n successive reads on the text s: the slots filled and the stream afterwards. */
  function Reads(s: string, n: nat): (r: (seq<Slot>, Option<string>))
    ensures |r.0| == n
  {
    if n == 0 then ([], Some(s))
    else
      var (st, slot) := Next(Some(s));
      var more := if st.Some? then Reads(st.value, n - 1) else (Unsets(n - 1), None);
      ([slot] + more.0, more.1)
  }

  /** The reads still to come, k of them, after the slots already filled left the stream at st. */
  function Continue(slots: seq<Slot>, st: Option<string>, k: nat): (seq<Slot>, Option<string>)
  {
    if st.Some? then (slots + Reads(st.value, k).0, Reads(st.value, k).1) else (slots + Unsets(k), None)
  }

  /** The n reads on s0 are the slots filled so far followed by the reads still to come on st. */
  ghost predicate Pending(s0: string, n: nat, st: Option<string>, slots: seq<Slot>)
  {
    |slots| <= n && Reads(s0, n) == Continue(slots, st, n - |slots|)
  }

  lemma PendingStart(s0: string, n: nat)
    ensures Pending(s0, n, Some(s0), [])
  {
    assert [] + Reads(s0, n).0 == Reads(s0, n).0;
  }

  lemma UnsetsCons(slots: seq<Slot>, k: nat)
    requires k > 0
    ensures slots + Unsets(k) == slots + [Unset] + Unsets(k - 1)
  {
    assert Unsets(k) == [Unset] + Unsets(k - 1);
  }

  /** A read on a failed stream leaves its variable unset and the stream failed. */
  lemma PendingStepFailed(s0: string, n: nat, slots: seq<Slot>)
    requires Pending(s0, n, None, slots) && |slots| < n
    ensures Pending(s0, n, None, slots + [Unset])
  {
    UnsetsCons(slots, n - |slots|);
  }

  /** The first of k reads on t, and the k - 1 after it. */
  lemma ReadsUnfold(t: string, k: nat)
    requires k > 0
    ensures var (st, slot) := Next(Some(t));
      Reads(t, k) == if st.Some? then ([slot] + Reads(st.value, k - 1).0, Reads(st.value, k - 1).1) else ([slot] + Unsets(k - 1), None)
  {
  }

  /** One more read keeps the relation. */
  lemma PendingStep(s0: string, n: nat, st: Option<string>, slots: seq<Slot>)
    requires Pending(s0, n, st, slots) && |slots| < n
    ensures Pending(s0, n, Next(st).0, slots + [Next(st).1])
  {
    if st.None? {
      PendingStepFailed(s0, n, slots);
    } else {
      var k := n - |slots|;
      var (st', slot) := Next(st);
      ReadsUnfold(st.value, k);
      var more := if st'.Some? then Reads(st'.value, k - 1) else (Unsets(k - 1), None);
      assert Reads(st.value, k) == ([slot] + more.0, more.1);
      assert slots + ([slot] + more.0) == slots + [slot] + more.0;
    }
  }

  /** Once every read is done, the slots filled and the stream are what Reads says. */
  lemma PendingDone(s0: string, n: nat, st: Option<string>, slots: seq<Slot>)
    requires Pending(s0, n, st, slots) && |slots| == n
    ensures Reads(s0, n) == (slots, st)
  {
    assert slots + [] == slots;
  }

  /** Every read of a stream that still holds text starts from that text. */
  lemma ReadsFirst(s: string, n: nat)
    requires n > 0
    ensures Reads(s, n).0[0] == Next(Some(s)).1
  {
  }

  /** The values of n numbers read. */
  function Slotted(vs: seq<int>): (sl: seq<Slot>)
    ensures |sl| == |vs| && Usable(sl)
    ensures forall i :: 0 <= i < |vs| ==> sl[i] == Read(vs[i])
  {
    seq(|vs|, i requires 0 <= i < |vs| => Read(vs[i]))
  }

  lemma SlottedCons(v: int, vs: seq<int>)
    ensures Slotted([v] + vs) == [Read(v)] + Slotted(vs)
  {
  }

  /** A first read that fails fails the whole run. */
  lemma ReadIntsFailFirst(s: string, n: nat)
    requires n > 0 && ReadInt(s).None?
    ensures ReadInts(s, n).None?
  {
  }

  /** A later read that fails fails the whole run. */
  lemma ReadIntsFailLater(s: string, v: int, rest: string, n: nat)
    requires ReadInt(s) == Some((v, rest)) && ReadInts(rest, n).None?
    ensures ReadInts(s, n + 1).None?
  {
  }

  /**
   * The stream is still good after n reads exactly when ReadInts reads n
   * numbers, and then the slots hold those numbers and the stream the text
   * ReadInts leaves.
   */
  lemma {:induction false} ReadsOfReadInts(s: string, n: nat)
    ensures ReadInts(s, n).Some? <==> Reads(s, n).1.Some?
    ensures ReadInts(s, n).Some? ==> Reads(s, n) == (Slotted(ReadInts(s, n).value.0), Some(ReadInts(s, n).value.1))
  {
    if n > 0 {
      NextReadInt(s);
      ReadsUnfold(s, n);
      var r := ReadInt(s);
      if r.None? {
        ReadIntsFailFirst(s, n);
      } else {
        var (v, rest) := r.value;
        ReadsOfReadInts(rest, n - 1);
        var q := ReadInts(rest, n - 1);
        if q.None? {
          ReadIntsFailLater(s, v, rest, n - 1);
        } else {
          ReadIntsStep(s, v, rest, n - 1, q.value.0, q.value.1);
          SlottedCons(v, q.value.0);
        }
      }
    }
  }

  /** One more id read by `while (stream >> id)`. */
  lemma ReadAllStep(t: string, ids: seq<int>, rest: string)
    requires Next(Some(rest)).1.Read?
    requires ids + ReadAll(rest) == ReadAll(t)
    ensures ids + [Next(Some(rest)).1.value] + ReadAll(Next(Some(rest)).0.value) == ReadAll(t)
  {
    NextReadInt(rest);
    var v := ReadInt(rest).value.0;
    var more := ReadAll(ReadInt(rest).value.1);
    assert ReadAll(rest) == [v] + more;
    assert ids + [v] + more == ids + ([v] + more);
  }

  /** The read that ends `while (stream >> id)` ends ReadAll too. */
  lemma ReadAllEnd(rest: string)
    requires !Next(Some(rest)).1.Read?
    ensures ReadAll(rest) == []
  {
    NextReadInt(rest);
  }

  /** `while (stream >> id) ids.push_back(id)` on a stream holding t: every id up to the first read that fails. */
  method ReadIds(t: string) returns (ids: seq<int>)
    ensures ids == ReadAll(t)
  {
    ids := [];
    var rest := t;
    var r := Next(Some(rest));
    assert [] + ReadAll(t) == ReadAll(t);
    while r.1.Read?
      invariant r == Next(Some(rest))
      invariant ids + ReadAll(rest) == ReadAll(t)
      decreases |rest|
    {
      ReadAllStep(t, ids, rest);
      ids := ids + [r.1.value];
      rest := r.0.value;
      r := Next(Some(rest));
    }
    ReadAllEnd(rest);
    assert ids + [] == ids;
  }

  /** removeSharp: every '#' erased, one at a time, until none is left. */
  method RemoveSharp(message: string) returns (r: string)
    ensures r == RemoveAll(message, '#')
  {
    r := EraseAll(message, '#');
  }
}
