/** Collection of IKE message fragments (section 2.6 of RFC 7383). */
module Fragments {
  import opened Wrappers

  type Message = seq<nat>

  const HEADER_LEN := 28
  const MAX_SETS := 1024
  const MAX_TOTAL := 64

  /** SPIs, message id, exchange type and peer. */
  datatype Key = Key(initiatorSpi: nat, responderSpi: nat, messageId: nat, exchange: nat, peer: string)

  datatype FragmentSet = FragmentSet(messages: seq<Message>, total: nat, updated: nat)

  datatype FragmentError = Truncated | InvalidNumbering | UnknownSa | TooManySets | InconsistentTotal

  predicate Bytes(data: Message) {
    forall b <- data :: b < 256
  }

  predicate LongEnough(data: Message) {
    |data| >= HEADER_LEN + 8
  }

  function U16(hi: nat, lo: nat): nat {
    hi * 256 + lo
  }

  function Number(data: Message): nat
    requires LongEnough(data)
  {
    U16(data[HEADER_LEN + 4], data[HEADER_LEN + 5])
  }

  function Total(data: Message): nat
    requires LongEnough(data)
  {
    U16(data[HEADER_LEN + 6], data[HEADER_LEN + 7])
  }

  predicate WellNumbered(data: Message) {
    LongEnough(data) && 0 < Number(data) <= Total(data) <= MAX_TOTAL
  }

  /** Both numbers are big-endian, behind the 28 bytes of the IKE header and the 4 of the payload header. */
  lemma NumberingFormat(header: Message, number: nat, total: nat, rest: Message)
    requires |header| == 32 && number < 65536 && total < 65536
    ensures var data := header + [number / 256, number % 256, total / 256, total % 256] + rest;
            LongEnough(data) && Number(data) == number && Total(data) == total
  {
  }

  /** The comparison made on stored messages: the two number bytes. */
  predicate SameNumberBytes(a: Message, b: Message)
    requires LongEnough(a) && LongEnough(b)
  {
    a[HEADER_LEN + 4..HEADER_LEN + 6] == b[HEADER_LEN + 4..HEADER_LEN + 6]
  }

  lemma SameBytesSameNumber(a: Message, b: Message)
    requires LongEnough(a) && LongEnough(b) && Bytes(a) && Bytes(b)
    ensures SameNumberBytes(a, b) <==> Number(a) == Number(b)
  {
    var i := HEADER_LEN + 4;
    assert a[i] in a && a[i + 1] in a && b[i] in b && b[i + 1] in b;
    assert a[i..i + 2] == [a[i], a[i + 1]] && b[i..i + 2] == [b[i], b[i + 1]];
  }

  ghost predicate DistinctNumbers(messages: seq<Message>)
    requires forall m <- messages :: LongEnough(m)
  {
    forall i, j :: 0 <= i < j < |messages| ==> Number(messages[i]) != Number(messages[j])
  }

  /** Fragments of one message, each number at most once. */
  ghost predicate Partial(messages: seq<Message>, total: nat) {
    && (forall m <- messages :: Bytes(m) && WellNumbered(m) && Total(m) == total)
    && DistinctNumbers(messages)
  }

  ghost predicate ValidSet(s: FragmentSet) {
    Partial(s.messages, s.total) && 0 < |s.messages| < s.total
  }

  function NumbersOf(messages: seq<Message>): set<nat> {
    set i | 0 <= i < |messages| && LongEnough(messages[i]) :: Number(messages[i])
  }

  function UpTo(total: nat): set<nat> {
    if total == 0 then {} else UpTo(total - 1) + {total}
  }

  lemma {:induction false} UpToSize(total: nat)
    ensures |UpTo(total)| == total
    ensures forall n :: n in UpTo(total) <==> 1 <= n <= total
  {
    if total > 0 {
      UpToSize(total - 1);
    }
  }

  lemma AppendNumbers(messages: seq<Message>, data: Message)
    requires LongEnough(data)
    ensures NumbersOf(messages + [data]) == NumbersOf(messages) + {Number(data)}
  {
    var r := messages + [data];
    assert r[|messages|] == data;
    forall n | n in NumbersOf(messages)
      ensures n in NumbersOf(r)
    {
      var i :| 0 <= i < |messages| && LongEnough(messages[i]) && Number(messages[i]) == n;
      assert r[i] == messages[i];
    }
    assert Number(r[|messages|]) in NumbersOf(r);
    forall n | n in NumbersOf(r)
      ensures n in NumbersOf(messages) + {Number(data)}
    {
      var i :| 0 <= i < |r| && LongEnough(r[i]) && Number(r[i]) == n;
      assert i < |messages| ==> r[i] == messages[i];
    }
  }

  lemma {:induction false} NumbersSize(messages: seq<Message>)
    requires (forall m <- messages :: LongEnough(m)) && DistinctNumbers(messages)
    ensures |NumbersOf(messages)| == |messages|
  {
    if messages != [] {
      var k := |messages| - 1;
      var front, last := messages[..k], messages[k];
      assert last in messages && messages == front + [last];
      NumbersSize(front);
      AppendNumbers(front, last);
      assert Number(last) !in NumbersOf(front);
    }
  }

  /** As many distinct fragments as the total are exactly the fragments 1 to total. */
  lemma FullMeansAll(messages: seq<Message>, total: nat)
    requires Partial(messages, total)
    ensures NumbersOf(messages) <= UpTo(total) && |messages| <= total
    ensures |messages| == total <==> NumbersOf(messages) == UpTo(total)
  {
    NumbersSize(messages);
    UpToSize(total);
    forall n | n in NumbersOf(messages)
      ensures n in UpTo(total)
    {
      var i :| 0 <= i < |messages| && LongEnough(messages[i]) && Number(messages[i]) == n;
      assert messages[i] in messages;
    }
    assert UpTo(total) == NumbersOf(messages) + (UpTo(total) - NumbersOf(messages));
    if |messages| == total {
      SubsetSize(NumbersOf(messages), UpTo(total));
    }
  }

  /** The first message of each number is kept. */
  function Gather(messages: seq<Message>, data: Message): seq<Message>
    requires LongEnough(data)
  {
    if Number(data) in NumbersOf(messages) then messages else messages + [data]
  }

  method AddMessage(messages: seq<Message>, data: Message) returns (r: seq<Message>)
    requires WellNumbered(data) && Bytes(data) && Partial(messages, Total(data))
    ensures Partial(r, Total(data))
    ensures NumbersOf(r) == NumbersOf(messages) + {Number(data)}
    ensures r == Gather(messages, data)
  {
    for i := 0 to |messages|
      invariant forall k :: 0 <= k < i ==> messages[k] in messages && Number(messages[k]) != Number(data)
    {
      assert messages[i] in messages;
      SameBytesSameNumber(messages[i], data);
      if SameNumberBytes(messages[i], data) {
        assert Number(messages[i]) in NumbersOf(messages);
        return messages;
      }
    }
    r := messages + [data];
    AppendNumbers(messages, data);
  }

  ghost predicate ValidSets(sets: map<Key, FragmentSet>) {
    |sets| <= MAX_SETS && forall k <- sets :: ValidSet(sets[k])
  }

  lemma PutKeepsValid(sets: map<Key, FragmentSet>, key: Key, s: FragmentSet)
    requires ValidSets(sets) && |sets| < MAX_SETS && ValidSet(s)
    ensures ValidSets(sets[key := s])
  {
    SubsetSize(sets[key := s].Keys, sets.Keys + {key});
    assert |sets[key := s]| == |sets[key := s].Keys|;
  }

  lemma ShrinkKeepsValid(sets: map<Key, FragmentSet>, kept: map<Key, FragmentSet>)
    requires ValidSets(sets) && kept.Keys <= sets.Keys && forall k <- kept :: kept[k] == sets[k]
    ensures ValidSets(kept)
  {
    SubsetSize(kept.Keys, sets.Keys);
    assert |kept| == |kept.Keys| && |sets| == |sets.Keys|;
  }

  class FragmentTable {
    var sets: map<Key, FragmentSet>

    ghost predicate Valid()
      reads this
    {
      ValidSets(sets)
    }

    /** The fragments held for one message. */
    ghost function Held(key: Key): seq<Message>
      reads this
    {
      if key in sets then sets[key].messages else []
    }

    constructor ()
      ensures Valid() && sets == map[]
    {
      sets := map[];
    }

    /**
     Takes one fragment in. The whole set is handed out exactly when this fragment
     makes the collected numbers 1 to total, and then holds each number once.
     */
    method CollectFragment(data: Message, key: Key, knownSa: bool, now: nat)
      returns (r: Result<Option<seq<Message>>, FragmentError>)
      requires Valid() && Bytes(data)
      modifies this
      ensures Valid()
      ensures r.Err? ==> sets == old(sets)
      ensures r.Err? <==>
              || !WellNumbered(data) || !knownSa || |old(sets)| >= MAX_SETS
              || (key in old(sets) && old(sets)[key].total != Total(data))
      ensures r.Ok? ==> sets - {key} == old(sets) - {key}
      ensures r.Ok? ==> (r.value.Some? <==> NumbersOf(old(Held(key))) + {Number(data)} == UpTo(Total(data)))
      ensures r.Ok? && r.value.None? ==>
              && key in sets && sets[key] == FragmentSet(Gather(old(Held(key)), data), Total(data), now)
      ensures r.Ok? && r.value.Some? ==>
              && key !in sets
              && r.value.value == Gather(old(Held(key)), data)
              && Partial(r.value.value, Total(data)) && |r.value.value| == Total(data)
              && NumbersOf(r.value.value) == UpTo(Total(data))
    {
      hide Partial, NumbersOf, UpTo, ValidSets;
      var refusal := Screen(data, key, knownSa);
      if refusal.Some? {
        return Err(refusal.value);
      }
      var whole := Store(data, key, now);
      r := Ok(whole);
    }

    method Screen(data: Message, key: Key, knownSa: bool) returns (refusal: Option<FragmentError>)
      ensures refusal.None? <==>
              WellNumbered(data) && knownSa && |sets| < MAX_SETS && (key in sets ==> sets[key].total == Total(data))
    {
      if !LongEnough(data) {
        return Some(Truncated);
      }
      var number, total := Number(data), Total(data);
      if number == 0 || total == 0 || number > total || total > MAX_TOTAL {
        return Some(InvalidNumbering);
      }
      if !knownSa {
        return Some(UnknownSa);
      }
      if |sets| >= MAX_SETS {
        return Some(TooManySets);
      }
      refusal := if key in sets && sets[key].total != total then Some(InconsistentTotal) else None;
    }

    /** Files an admitted fragment, and takes the set out if that completed it. */
    method Store(data: Message, key: Key, now: nat) returns (whole: Option<seq<Message>>)
      requires Valid() && Bytes(data) && WellNumbered(data) && |sets| < MAX_SETS
      requires key in sets ==> sets[key].total == Total(data)
      modifies this
      ensures Valid() && sets - {key} == old(sets) - {key}
      ensures whole.Some? <==> NumbersOf(old(Held(key))) + {Number(data)} == UpTo(Total(data))
      ensures whole.None? ==> key in sets && sets[key] == FragmentSet(Gather(old(Held(key)), data), Total(data), now)
      ensures whole.Some? ==>
              && key !in sets
              && whole.value == Gather(old(Held(key)), data)
              && Partial(whole.value, Total(data)) && |whole.value| == Total(data)
              && NumbersOf(whole.value) == UpTo(Total(data))
    {
      var total, held := Total(data), if key in sets then sets[key].messages else [];
      assert Partial(held, total) by {
        hide WellNumbered;
      }
      hide Partial, NumbersOf, UpTo, ValidSets;
      var messages := AddMessage(held, data);
      FullMeansAll(messages, total);
      if |messages| != total {
        PutKeepsValid(sets, key, FragmentSet(messages, total, now));
        sets := sets[key := FragmentSet(messages, total, now)];
        return None;
      }
      ShrinkKeepsValid(sets, sets - {key});
      sets := sets - {key};
      whole := Some(messages);
    }

    /** Forgets the sets that have not been touched for the given time. */
    method Cleanup(now: nat, timeout: nat)
      requires Valid()
      modifies this
      ensures Valid()
      ensures sets == map k | k in old(sets) && now - old(sets)[k].updated < timeout :: old(sets)[k]
    {
      var kept := map k | k in sets && now - sets[k].updated < timeout :: sets[k];
      ShrinkKeepsValid(sets, kept);
      sets := kept;
    }
  }

  // ---------- arrivals in any order ----------

  function GatherAll(arrivals: seq<Message>): seq<Message>
    requires forall m <- arrivals :: LongEnough(m)
    decreases |arrivals|
  {
    if arrivals == [] then []
    else
      var k := |arrivals| - 1;
      assert arrivals[k] in arrivals;
      Gather(GatherAll(arrivals[..k]), arrivals[k])
  }

  /** For any order and any duplicates, the set is full exactly when every number has arrived. */
  lemma {:induction false} CompleteIffAllArrived(arrivals: seq<Message>, total: nat)
    requires forall m <- arrivals :: LongEnough(m)
    requires forall m <- arrivals :: Bytes(m) && WellNumbered(m) && Total(m) == total
    ensures Partial(GatherAll(arrivals), total)
    ensures NumbersOf(GatherAll(arrivals)) == NumbersOf(arrivals)
    ensures |GatherAll(arrivals)| == total <==> NumbersOf(arrivals) == UpTo(total)
    decreases |arrivals|
  {
    if arrivals != [] {
      var k := |arrivals| - 1;
      var front, data := arrivals[..k], arrivals[k];
      assert data in arrivals && arrivals == front + [data];
      CompleteIffAllArrived(front, total);
      AppendNumbers(front, data);
      var before := GatherAll(front);
      if Number(data) !in NumbersOf(before) {
        AppendNumbers(before, data);
        forall i | 0 <= i < |before|
          ensures before[i] in before && Number(before[i]) in NumbersOf(before)
        {
        }
      }
    }
    FullMeansAll(GatherAll(arrivals), total);
  }
}
