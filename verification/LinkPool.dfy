/** Sending through a pool of links: the fastest one that takes the payload. */
module LinkPool {
  import opened Wrappers
  import opened LeaseModel
  import opened Sorting

  type Payload = seq<nat>

  const UNKNOWN_LATENCY := 0xFFFF_FFFF

  /** The bounded queue behind a link's sender. */
  datatype Queue = Queue(items: seq<Payload>, capacity: nat, open: bool) {
    predicate Accepts() {
      open && |items| < capacity
    }

    function Push(payload: Payload): Queue {
      this.(items := items + [payload])
    }
  }

  datatype Candidate = Candidate(latency: nat, link: LinkId)

  function Latency(pool: Pool, link: LinkId): nat
    requires link in pool.links
  {
    if pool.links[link].Some? then pool.links[link].value else UNKNOWN_LATENCY
  }

  /** A link of unknown latency counts as slower than any link of a 32-bit latency, or as slow as the slowest. */
  lemma UnknownIsSlowest(pool: Pool, unknown: LinkId, known: LinkId)
    requires unknown in pool.links && known in pool.links
    requires pool.links[unknown].None? && pool.links[known].Some? && pool.links[known].value < 0x1_0000_0000
    ensures Latency(pool, known) <= Latency(pool, unknown)
    ensures Latency(pool, known) == pool.links[known].value
    ensures pool.links[known].value != 0xFFFF_FFFF ==> Latency(pool, known) < Latency(pool, unknown)
  {
  }

  function ByLatency(): (Candidate, Candidate) -> bool {
    (a: Candidate, b: Candidate) => a.latency <= b.latency
  }

  /** The links in any order, each once. */
  method Candidates(pool: Pool) returns (all: seq<Candidate>)
    ensures forall c <- all :: c.link in pool.links && c.latency == Latency(pool, c.link)
    ensures forall link <- pool.links :: Candidate(Latency(pool, link), link) in all
  {
    all := [];
    var left := pool.links.Keys;
    while left != {}
      invariant left <= pool.links.Keys
      invariant forall c <- all :: c.link in pool.links && c.latency == Latency(pool, c.link)
      invariant forall link <- pool.links :: link in left || Candidate(Latency(pool, link), link) in all
      decreases left
    {
      var link :| link in left;
      all := all + [Candidate(Latency(pool, link), link)];
      left := left - {link};
    }
  }

  /** The links, each once, the fastest first. */
  method SortedCandidates(pool: Pool) returns (sorted: seq<Candidate>)
    ensures forall c <- sorted :: c.link in pool.links && c.latency == Latency(pool, c.link)
    ensures forall link <- pool.links :: Candidate(Latency(pool, link), link) in sorted
    ensures forall i, j :: 0 <= i < j < |sorted| ==> sorted[i].latency <= sorted[j].latency
  {
    var all := Candidates(pool);
    sorted := Sort(all, ByLatency());
    SortPermutes(all, ByLatency());
    SortSorts(all, ByLatency());
    forall i, j | 0 <= i < j < |sorted|
      ensures sorted[i].latency <= sorted[j].latency
    {
      assert ByLatency()(sorted[i], sorted[j]);
    }
  }

  /**
   The payload goes to exactly one link, no slower than any other that would
   take it (unknown latency counts as slowest), or nowhere if every link refuses.
   */
  method TrySend(pool: Pool, queues: map<LinkId, Queue>, payload: Payload)
    returns (used: Option<LinkId>, queues': map<LinkId, Queue>)
    requires pool.links.Keys <= queues.Keys
    ensures used.None? <==> forall link <- pool.links :: !queues[link].Accepts()
    ensures used.None? ==> queues' == queues
    ensures used.Some? ==>
              && used.value in pool.links && queues[used.value].Accepts()
              && queues' == queues[used.value := queues[used.value].Push(payload)]
              && forall link <- pool.links ::
                   queues[link].Accepts() ==> Latency(pool, used.value) <= Latency(pool, link)
  {
    var sorted := SortedCandidates(pool);
    for i := 0 to |sorted|
      invariant forall k :: 0 <= k < i ==> sorted[k].link in queues && !queues[sorted[k].link].Accepts()
    {
      assert sorted[i] in sorted;
      var link := sorted[i].link;
      if queues[link].Accepts() {
        forall other | other in pool.links && queues[other].Accepts()
          ensures Latency(pool, link) <= Latency(pool, other)
        {
          assert Candidate(Latency(pool, other), other) in sorted;
          var k :| 0 <= k < |sorted| && sorted[k] == Candidate(Latency(pool, other), other);
          assert i < k ==> sorted[i].latency <= sorted[k].latency;
        }
        return Some(link), queues[link := queues[link].Push(payload)];
      }
    }
    forall link | link in pool.links
      ensures !queues[link].Accepts()
    {
      assert Candidate(Latency(pool, link), link) in sorted;
    }
    used, queues' := None, queues;
  }
}
