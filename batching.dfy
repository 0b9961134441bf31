/**
 * Record selection and batching: which parse events are organisation
 * records, the `(batch, org_count)` pairs the batching snapshots publish,
 * and the queue between the preloading producer and the processing consumer.
 */
module Batching {
  import opened Wrappers
  import opened PyText
  import opened Xml

  /**
   * An `"end"` event of an `Organisation` element: the tag equals
   * `Organisation` exactly (importdata.py) or merely ends with it (older
   * snapshots).
   */
  predicate IsRecord(ev: ParseEvent, exactTag: bool)
  {
    ev.kind == End
    && if exactTag then ev.element.tag == "Organisation" else EndsWith(ev.element.tag, "Organisation")
  }

  /** The records of an event stream, in stream order. */
  function Records(evs: seq<ParseEvent>, exactTag: bool): (r: seq<Element>)
    ensures |r| <= |evs|
    ensures forall e :: e in r <==> exists k :: 0 <= k < |evs| && IsRecord(evs[k], exactTag) && evs[k].element == e
  {
    if evs == [] then []
    else
      var init, last := evs[..|evs| - 1], evs[|evs| - 1];
      assert forall k :: 0 <= k < |init| ==> init[k] == evs[k];
      Records(init, exactTag) + (if IsRecord(last, exactTag) then [last.element] else [])
  }

  /** Looking at one more event adds its element exactly when it is a record. */
  lemma RecordsStep(evs: seq<ParseEvent>, i: nat, exactTag: bool)
    requires i < |evs|
    ensures IsRecord(evs[i], exactTag) ==> Records(evs[..i + 1], exactTag) == Records(evs[..i], exactTag) + [evs[i].element]
    ensures !IsRecord(evs[i], exactTag) ==> Records(evs[..i + 1], exactTag) == Records(evs[..i], exactTag)
  {
    assert evs[..i + 1][..i] == evs[..i];
    var r := Records(evs[..i], exactTag);
    assert r + [] == r;
  }

  /** Every record under the exact-tag rule is also one under the suffix rule. */
  lemma {:induction false} ExactRecordsAreRecords(evs: seq<ParseEvent>)
    ensures forall e :: e in Records(evs, true) ==> e in Records(evs, false)
  {
    if evs != [] {
      ExactRecordsAreRecords(evs[..|evs| - 1]);
      var last := evs[|evs| - 1];
      if IsRecord(last, true) {
        assert EndsWith(last.element.tag, "Organisation");
      }
    }
  }

  // ---------------------------------------------------------------------
  // Batches

  /** `(batch, org_count)`: a list of records and the number of records read up to its last one. */
  datatype Batch = Batch(elements: seq<Element>, orgCount: nat)

  /** The records of the batches, in order. */
  function Flatten(bs: seq<Batch>): (r: seq<Element>)
  {
    if bs == [] then [] else Flatten(bs[..|bs| - 1]) + bs[|bs| - 1].elements
  }

  lemma FlattenSnoc(bs: seq<Batch>, b: Batch)
    ensures Flatten(bs + [b]) == Flatten(bs) + b.elements
  {
    assert (bs + [b])[..|bs|] == bs;
  }

  /** Each batch is non-empty, holds at most `size` records, and all but the last hold exactly `size`. */
  predicate Sized(bs: seq<Batch>, size: nat)
  {
    forall i :: 0 <= i < |bs| ==>
      0 < |bs[i].elements| && (size > 0 ==> |bs[i].elements| <= size)
      && (i < |bs| - 1 ==> |bs[i].elements| == size)
  }

  /** Every batch holds exactly `size` records, and none is empty. */
  predicate AllFull(bs: seq<Batch>, size: nat)
  {
    forall i :: 0 <= i < |bs| ==> 0 < |bs[i].elements| == size
  }

  /** Each batch carries the cumulative count of records up to and including its own. */
  predicate Counted(bs: seq<Batch>)
  {
    forall i :: 0 <= i < |bs| ==> bs[i].orgCount == |Flatten(bs[..i + 1])|
  }

  /** Publishing the next batch with the running count keeps the counts cumulative. */
  lemma CountedSnoc(bs: seq<Batch>, b: Batch)
    requires Counted(bs) && b.orgCount == |Flatten(bs)| + |b.elements|
    ensures Counted(bs + [b])
  {
    var cs := bs + [b];
    forall i | 0 <= i < |cs| ensures cs[i].orgCount == |Flatten(cs[..i + 1])| {
      if i < |bs| {
        assert cs[..i + 1] == bs[..i + 1];
      } else {
        assert cs[..i + 1] == bs + [b];
        FlattenSnoc(bs, b);
      }
    }
  }

  /**
   * The batching loop's state between records: the published batches are
   * full and carry cumulative counts, and `batch` holds the records read
   * since, fewer than `size` when `size` is positive (a size of zero is
   * never reached, so then every record stays in `batch`).
   */
  ghost predicate Pending(bs: seq<Batch>, batch: seq<Element>, orgCount: nat, size: nat)
  {
    orgCount == |Flatten(bs)| + |batch| && AllFull(bs, size) && Counted(bs) && (size > 0 ==> |batch| < size)
  }

  /** A batch that has just filled up is published and the next one starts empty. */
  lemma PendingFlush(bs: seq<Batch>, batch: seq<Element>, orgCount: nat, size: nat)
    requires AllFull(bs, size) && Counted(bs) && 0 < size == |batch| && orgCount == |Flatten(bs)| + |batch|
    ensures Pending(bs + [Batch(batch, orgCount)], [], orgCount, size)
    ensures Flatten(bs + [Batch(batch, orgCount)]) == Flatten(bs) + batch
  {
    var cs := bs + [Batch(batch, orgCount)];
    FlattenSnoc(bs, Batch(batch, orgCount));
    CountedSnoc(bs, Batch(batch, orgCount));
    forall k | 0 <= k < |cs| ensures 0 < |cs[k].elements| == size {
      if k < |bs| {
        assert cs[k] == bs[k];
      }
    }
  }

  /** Full batches are sized. */
  lemma FullSized(bs: seq<Batch>, size: nat)
    requires AllFull(bs, size)
    ensures Sized(bs, size)
  {
  }

  /** Full batches followed by one final, possibly shorter, batch are sized. */
  lemma SizedSnoc(bs: seq<Batch>, b: Batch, size: nat)
    requires AllFull(bs, size)
    requires 0 < |b.elements| && (size > 0 ==> |b.elements| <= size)
    ensures Sized(bs + [b], size)
  {
    var cs := bs + [b];
    forall i | 0 <= i < |cs| ensures 0 < |cs[i].elements| && (size > 0 ==> |cs[i].elements| <= size)
      && (i < |cs| - 1 ==> |cs[i].elements| == size)
    {
      if i < |bs| {
        assert cs[i] == bs[i];
      } else {
        assert cs[i] == b;
      }
    }
  }

  /**
   * The ordinal the consumer logs for the first record of batch `i`,
   * `max(org_count - len(batch) + 1, 1)`, is that record's position in the
   * stream (counting from one).
   */
  lemma StartOrdinal(bs: seq<Batch>, i: nat)
    requires Counted(bs) && i < |bs|
    ensures var b := bs[i];
            b.orgCount - |b.elements| + 1 >= 1
            && (if b.orgCount - |b.elements| + 1 >= 1 then b.orgCount - |b.elements| + 1 else 1)
               == |Flatten(bs[..i])| + 1
  {
    assert bs[..i + 1] == bs[..i] + [bs[i]];
    FlattenSnoc(bs[..i], bs[i]);
  }

  /** Each record paired with the same count. */
  function WithCount(elements: seq<Element>, count: nat): (r: seq<(Element, nat)>)
    ensures |r| == |elements|
  {
    seq(|elements|, j requires 0 <= j < |elements| => (elements[j], count))
  }

  lemma WithCountSnoc(elements: seq<Element>, e: Element, count: nat)
    ensures WithCount(elements + [e], count) == WithCount(elements, count) + [(e, count)]
  {
  }

  /**
   * Each record of a batch paired with the number its batch carries: what
   * import-v3.py and import-v8.py hand to the per-organisation step.
   */
  function Numbered(bs: seq<Batch>): (r: seq<(Element, nat)>)
    ensures |r| == |Flatten(bs)|
  {
    if bs == [] then []
    else
      var b := bs[|bs| - 1];
      Numbered(bs[..|bs| - 1]) + WithCount(b.elements, b.orgCount)
  }

  lemma NumberedSnoc(bs: seq<Batch>, b: Batch)
    ensures Numbered(bs + [b]) == Numbered(bs) + WithCount(b.elements, b.orgCount)
  {
    assert (bs + [b])[..|bs|] == bs;
  }

  /**
   * The count carried by the batch of the record at position `p` (from
   * zero) when `n` records are cut into batches of `size`: the end of its
   * batch, `min((p / size + 1) * size, n)`.
   */
  function BatchEnd(p: nat, size: nat, n: nat): nat
    requires size > 0
  {
    if (p / size + 1) * size <= n then (p / size + 1) * size else n
  }

  /**
   * In numbered batches every record appears once, in stream order, and
   * carries the count of the batch it travels in, not its own ordinal.
   */
  lemma {:induction false} NumberedSpec(bs: seq<Batch>, size: nat)
    requires Sized(bs, size) && Counted(bs) && size > 0
    ensures var n := |Flatten(bs)|;
            forall p :: 0 <= p < n ==>
              Numbered(bs)[p].0 == Flatten(bs)[p]
              && Numbered(bs)[p].1 == BatchEnd(p, size, n)
  {
    if bs != [] {
      var init := bs[..|bs| - 1];
      var b := bs[|bs| - 1];
      SizedInit(bs, size);
      CountedInit(bs);
      NumberedSpec(init, size);
      FullFlatten(init, size);
      var m := |Flatten(init)|;
      var n := |Flatten(bs)|;
      var nb := Numbered(bs);
      var fb := Flatten(bs);
      assert nb == Numbered(init) + WithCount(b.elements, b.orgCount);
      assert fb == Flatten(init) + b.elements;
      forall p | 0 <= p < n
        ensures nb[p].0 == fb[p] && nb[p].1 == BatchEnd(p, size, n)
      {
        if p < m {
          assert nb[p] == Numbered(init)[p];
          assert fb[p] == Flatten(init)[p];
          BatchEndFull(p, size, |init|, n);
        } else {
          assert nb[p] == (b.elements[p - m], b.orgCount);
          DivLast(p, size, |init|, n);
        }
      }
    }
  }

  /** Dropping the last batch of sized batches leaves full ones. */
  lemma SizedInit(bs: seq<Batch>, size: nat)
    requires Sized(bs, size) && bs != [] && size > 0
    ensures Sized(bs[..|bs| - 1], size) && AllFull(bs[..|bs| - 1], size)
    ensures 0 < |bs[|bs| - 1].elements| <= size
  {
  }

  /** Dropping the last batch keeps the counts cumulative; the last carries the total. */
  lemma CountedInit(bs: seq<Batch>)
    requires Counted(bs) && bs != []
    ensures Counted(bs[..|bs| - 1]) && bs[|bs| - 1].orgCount == |Flatten(bs)|
  {
    var init := bs[..|bs| - 1];
    forall i | 0 <= i < |init| ensures init[i].orgCount == |Flatten(init[..i + 1])| {
      assert init[..i + 1] == bs[..i + 1];
    }
    assert bs[..|bs|] == bs;
  }

  /** A position inside the first `k` full batches ends its batch at the same place in any longer stream. */
  lemma BatchEndFull(p: nat, size: nat, k: nat, n: nat)
    requires size > 0 && p < k * size <= n
    ensures BatchEnd(p, size, k * size) == BatchEnd(p, size, n)
  {
    DivBound(p, size, k);
  }

  /** Full batches hold `size` records each. */
  lemma {:induction false} FullFlatten(bs: seq<Batch>, size: nat)
    requires AllFull(bs, size)
    ensures |Flatten(bs)| == |bs| * size
  {
    if bs != [] {
      var init := bs[..|bs| - 1];
      FullFlatten(init, size);
      assert bs == init + [bs[|bs| - 1]];
      FlattenSnoc(init, bs[|bs| - 1]);
      assert |bs| * size == |init| * size + size;
    }
  }

  /** A position inside the first `k` full batches names its own batch's end. */
  lemma DivBound(p: nat, size: nat, k: nat)
    requires size > 0 && p < k * size
    ensures (p / size + 1) * size <= k * size
  {
    var q := p / size;
    assert q * size <= p;
    MulStrict(q, k, size);
    assert (q + 1) * size == q * size + size;
    MulMono(q + 1, k, size);
  }

  /** A position in the last batch, which starts at `k * size`, names `n`. */
  lemma DivLast(p: nat, size: nat, k: nat, n: nat)
    requires size > 0 && k * size <= p < n <= k * size + size
    ensures BatchEnd(p, size, n) == n
  {
    DivUnique(p, size, k);
    assert (k + 1) * size == k * size + size;
  }

  lemma DivUnique(p: nat, size: nat, k: nat)
    requires size > 0 && k * size <= p < k * size + size
    ensures p / size == k
  {
    var q, r := p / size, p % size;
    assert p == q * size + r;
    assert (k + 1) * size == k * size + size;
    assert (q + 1) * size == q * size + size;
    MulStrict(q, k + 1, size);
    MulStrict(k, q + 1, size);
  }

  lemma MulStrict(a: nat, b: nat, c: nat)
    requires c > 0 && a * c < b * c
    ensures a < b
  {
  }

  lemma MulMono(a: nat, b: nat, c: nat)
    requires a <= b
    ensures a * c <= b * c
  {
  }

  // ---------------------------------------------------------------------
  // The queue

  /** The queue items that carry the batches, in order. */
  function Published(bs: seq<Batch>): (r: seq<Option<Batch>>)
    ensures |r| == |bs| && forall i :: 0 <= i < |bs| ==> r[i] == Some(bs[i])
  {
    seq(|bs|, i requires 0 <= i < |bs| => Some(bs[i]))
  }

  lemma PublishedSnoc(bs: seq<Batch>, b: Batch)
    ensures Published(bs + [b]) == Published(bs) + [Some(b)]
  {
  }

  /** The batches among queue items, in order, sentinels dropped. */
  function Batches(items: seq<Option<Batch>>): seq<Batch>
  {
    if items == [] then []
    else
      var last := items[|items| - 1];
      Batches(items[..|items| - 1]) + (if last.Some? then [last.value] else [])
  }

  lemma BatchesSnoc(items: seq<Option<Batch>>, b: Batch)
    ensures Batches(items + [Some(b)]) == Batches(items) + [b]
  {
    assert (items + [Some(b)])[..|items|] == items;
  }

  /** The batches published first are the batches taken first. */
  lemma {:induction false} BatchesOfPublished(bs: seq<Batch>, k: nat)
    requires k <= |bs|
    ensures Batches(Published(bs)[..k]) == bs[..k]
  {
    if k > 0 {
      BatchesOfPublished(bs, k - 1);
      assert Published(bs)[..k] == Published(bs)[..k - 1] + [Some(bs[k - 1])];
      BatchesSnoc(Published(bs)[..k - 1], bs[k - 1]);
      assert bs[..k] == bs[..k - 1] + [bs[k - 1]];
    }
  }

  /**
   * `queue.Queue(maxsize=capacity)`: a FIFO of `(batch, org_count)` items and
   * `None` sentinels; capacity 0 means unbounded. `puts` and `taken` record
   * everything ever put and taken.
   */
  class Channel {
    var items: seq<Option<Batch>>
    const capacity: nat
    ghost var puts: seq<Option<Batch>>
    ghost var taken: seq<Option<Batch>>

    /** What has been taken, followed by what is waiting, is everything put; the bound holds. */
    ghost predicate Valid()
      reads this
    {
      taken + items == puts && (capacity > 0 ==> |items| <= capacity)
    }

    constructor(capacity: nat)
      ensures Valid() && this.capacity == capacity
      ensures items == [] && puts == [] && taken == []
    {
      this.capacity := capacity;
      items := [];
      puts := [];
      taken := [];
    }

    predicate Full()
      reads this
    {
      capacity > 0 && |items| >= capacity
    }

    /** A `put` that fails, leaving the queue alone, when the queue is full. */
    method TryPut(x: Option<Batch>) returns (ok: bool)
      requires Valid()
      modifies this
      ensures Valid()
      ensures ok <==> !old(Full())
      ensures ok ==> items == old(items) + [x] && puts == old(puts) + [x]
      ensures !ok ==> items == old(items) && puts == old(puts)
      ensures taken == old(taken)
    {
      if Full() {
        ok := false;
      } else {
        items := items + [x];
        puts := puts + [x];
        ok := true;
      }
    }

    /** `get()` on a non-empty queue: the oldest item. */
    method Get() returns (x: Option<Batch>)
      requires Valid() && items != []
      modifies this
      ensures Valid()
      ensures x == old(items)[0] && items == old(items)[1..]
      ensures taken == old(taken) + [x] && puts == old(puts)
    {
      x := items[0];
      items := items[1..];
      taken := taken + [x];
    }
  }

  /** Whether the stop flag is set by the time the producer looks at event `t` (`t` = the number of events: after the loop). */
  predicate StopSet(stopAt: Option<nat>, t: nat)
  {
    stopAt.Some? && stopAt.value <= t
  }

  /** How many of `n` events the producer looks at before it sees the stop flag. */
  function StopEvent(stopAt: Option<nat>, n: nat): (m: nat)
    ensures m <= n && (m < n ==> StopSet(stopAt, m)) && forall t: nat :: t < m ==> !StopSet(stopAt, t)
  {
    if stopAt.Some? && stopAt.value < n then stopAt.value else n
  }
}
