/**
 * One batch of `generate_organisation_yaml` tasks, as the three
 * queue-driven snapshots run it: every task of the batch runs, each
 * appending its document (if any) to the batch buffer under its key, and
 * the batch ends with the first failure among its tasks. The pool task itself
 * differs from snapshot to snapshot and is a parameter here.
 */
module Tasks {
  import opened Wrappers
  import opened Xml
  import opened Convert
  import opened Classify
  import opened Batching
  import opened Output
  import OrderedDict

  /** One buffered document: its key, then `(extension, organisation_dict)`. */
  type Entry = (string, (string, Value))

  /** What one task does: nothing, one document to buffer, or a failure. */
  type Task = Element -> Result<Option<Entry>>

  /** `batch_yaml_data[key].append((extension, dict))`, creating the list first when needed. */
  function Buffered(buf: Buffer, r: Result<Option<Entry>>): Buffer
  {
    if r.Ok? && r.value.Some? then OrderedDict.AppendAt(buf, r.value.value.0, r.value.value.1) else buf
  }

  /** The buffer after the batch's tasks, run in batch order. */
  function BatchBuffer(batch: seq<Element>, task: Task): Buffer
  {
    if batch == [] then []
    else Buffered(BatchBuffer(batch[..|batch| - 1], task), task(batch[|batch| - 1]))
  }

  /** The documents of the batch buffered under `key`, in batch order. */
  function EntriesIn(batch: seq<Element>, key: string, task: Task): seq<(string, Value)>
  {
    if batch == [] then []
    else
      var r := task(batch[|batch| - 1]);
      EntriesIn(batch[..|batch| - 1], key, task)
      + (if r.Ok? && r.value.Some? && r.value.value.0 == key then [r.value.value.1] else [])
  }

  /**
   * The buffer has one key per distinct key of the batch's documents, and
   * each key holds exactly its documents, in batch order.
   */
  lemma {:induction false} BatchBufferSpec(batch: seq<Element>, task: Task)
    ensures var buf := BatchBuffer(batch, task);
            OrderedDict.Distinct(buf)
            && (forall f :: f in OrderedDict.Keys(buf) <==> |EntriesIn(batch, f, task)| > 0)
            && (forall f :: f in OrderedDict.Keys(buf) ==> OrderedDict.Get(buf, f) == EntriesIn(batch, f, task))
  {
    if batch != [] {
      var init := batch[..|batch| - 1];
      var r := task(batch[|batch| - 1]);
      BatchBufferSpec(init, task);
      var b0 := BatchBuffer(init, task);
      var buf := BatchBuffer(batch, task);
      if r.Ok? && r.value.Some? {
        var (key, item) := r.value.value;
        assert buf == OrderedDict.AppendAt(b0, key, item);
        OrderedDict.AppendAtSpec(b0, key, item);
        forall f ensures f in OrderedDict.Keys(buf) <==> |EntriesIn(batch, f, task)| > 0 {
          assert EntriesIn(batch, f, task) == EntriesIn(init, f, task) + (if f == key then [item] else []);
        }
        forall f | f in OrderedDict.Keys(buf)
          ensures OrderedDict.Get(buf, f) == EntriesIn(batch, f, task)
        {
          assert EntriesIn(batch, f, task) == EntriesIn(init, f, task) + (if f == key then [item] else []);
          if f == key && f !in OrderedDict.Keys(b0) {
            assert |EntriesIn(init, f, task)| == 0;
          }
        }
      } else {
        assert buf == b0;
        forall f ensures EntriesIn(batch, f, task) == EntriesIn(init, f, task) {
        }
      }
    }
  }

  /** A document the record at `i` generates is among those of its key. */
  lemma {:induction false} EntryInFolder(batch: seq<Element>, task: Task, i: nat)
    requires i < |batch| && task(batch[i]).Ok? && task(batch[i]).value.Some?
    ensures var (key, item) := task(batch[i]).value.value;
            item in EntriesIn(batch, key, task)
  {
    if i < |batch| - 1 {
      EntryInFolder(batch[..|batch| - 1], task, i);
    }
  }

  /**
   * Where the document of the record at `i` sits in the batch buffer: at
   * position `q` of the list under its key, which is at position `p`.
   */
  lemma BufferedAt(batch: seq<Element>, task: Task, i: nat) returns (p: nat, q: nat)
    requires i < |batch| && task(batch[i]).Ok? && task(batch[i]).value.Some?
    ensures var buf := BatchBuffer(batch, task);
            var (key, item) := task(batch[i]).value.value;
            p < |buf| && buf[p].0 == key && q < |buf[p].1| && buf[p].1[q] == item
  {
    var (key, item) := task(batch[i]).value.value;
    var buf := BatchBuffer(batch, task);
    EntryInFolder(batch, task, i);
    BatchBufferSpec(batch, task);
    p := OrderedDict.IndexOf(buf, key);
    OrderedDict.GetAt(buf, p);
    q :| 0 <= q < |buf[p].1| && buf[p].1[q] == item;
  }

  /** The first failure of the batch's tasks, in batch order. */
  function BatchFailure(batch: seq<Element>, task: Task): Option<Failure>
  {
    if batch == [] then None
    else
      var f := BatchFailure(batch[..|batch| - 1], task);
      if f.Some? then f else FailureOf(task(batch[|batch| - 1]))
  }

  /** The number of records whose task returns without an exception. */
  function Successes(orgs: seq<Element>, task: Task): nat
  {
    if orgs == [] then 0
    else Successes(orgs[..|orgs| - 1], task) + (if task(orgs[|orgs| - 1]).Ok? then 1 else 0)
  }

  lemma SuccessesSnoc(orgs: seq<Element>, org: Element, task: Task)
    ensures Successes(orgs + [org], task) == Successes(orgs, task) + (if task(org).Ok? then 1 else 0)
  {
    assert (orgs + [org])[..|orgs|] == orgs;
  }

  /** A batch fails exactly when one of its tasks fails. */
  lemma {:induction false} BatchFailureSpec(batch: seq<Element>, task: Task)
    ensures BatchFailure(batch, task).None? <==> forall i :: 0 <= i < |batch| ==> task(batch[i]).Ok?
  {
    if batch != [] {
      var init := batch[..|batch| - 1];
      BatchFailureSpec(init, task);
      assert forall j :: 0 <= j < |init| ==> batch[j] == init[j];
    }
  }

  /** The failure a batch raises is that of its first failing task. */
  lemma {:induction false} BatchFailureAt(batch: seq<Element>, task: Task, i: nat)
    requires i < |batch| && task(batch[i]).Fail?
    requires forall j :: 0 <= j < i ==> task(batch[j]).Ok?
    ensures BatchFailure(batch, task) == Some(task(batch[i]).failure)
  {
    var init := batch[..|batch| - 1];
    if i < |init| {
      assert forall j :: 0 <= j <= i ==> batch[j] == init[j];
      BatchFailureAt(init, task, i);
    } else {
      assert forall j :: 0 <= j < |init| ==> batch[j] == init[j];
      BatchFailureSpec(init, task);
    }
  }

  // ---------------------------------------------------------------------
  // Where a consumer stops

  /** The position of the first item that is a sentinel or a batch `fails` holds of. */
  function FirstStop(items: seq<Option<Batch>>, fails: Batch -> bool): (k: nat)
    ensures k <= |items| && (k < |items| ==> items[k].None? || fails(items[k].value))
    ensures forall j :: 0 <= j < k ==> items[j].Some? && !fails(items[j].value)
  {
    if items == [] then 0
    else if items[0].None? || fails(items[0].value) then 0
    else 1 + FirstStop(items[1..], fails)
  }

  /** An item before the stop is a batch `fails` does not hold of, so the stop lies beyond it. */
  lemma FirstStopBeyond(items: seq<Option<Batch>>, fails: Batch -> bool, i: nat)
    requires i <= FirstStop(items, fails) && i < |items| && items[i].Some? && !fails(items[i].value)
    ensures i < FirstStop(items, fails)
  {
  }

  /** A sentinel, or a batch `fails` holds of, at or before the stop is the stop. */
  lemma FirstStopAt(items: seq<Option<Batch>>, fails: Batch -> bool, i: nat)
    requires i <= FirstStop(items, fails) && i < |items| && (items[i].None? || fails(items[i].value))
    ensures FirstStop(items, fails) == i
  {
  }

  /**
   * Published batches followed by the sentinel: the consumer stops at the
   * first batch `fails` holds of, and at the sentinel exactly when there is
   * none.
   */
  lemma StopOfPublished(bs: seq<Batch>, fails: Batch -> bool)
    ensures var k := FirstStop(Published(bs) + [None], fails);
            k <= |bs| && (k < |bs| ==> fails(bs[k]))
            && (k == |bs| <==> forall b :: b in bs ==> !fails(b))
  {
    var items := Published(bs) + [None];
    var k := FirstStop(items, fails);
    assert items[|bs|] == None;
    if k < |bs| {
      assert items[k] == Some(bs[k]);
    } else {
      forall b | b in bs ensures !fails(b) {
        var p :| 0 <= p < |bs| && bs[p] == b;
        assert items[p] == Some(b);
      }
    }
  }

  /** The batches whose tasks have run when the consumer stops at `k`: those before it, and the one at `k`. */
  function Processed(bs: seq<Batch>, k: nat): (r: seq<Batch>)
    requires k <= |bs|
    ensures k < |bs| ==> r == bs[..k] + [bs[k]]
    ensures k == |bs| ==> r == bs
  {
    if k == |bs| then bs else bs[..k + 1]
  }

  /** What the consumer takes from published batches and the sentinel, up to where it stops. */
  lemma PublishedPrefix(bs: seq<Batch>, fails: Batch -> bool)
    ensures var items := Published(bs) + [None];
            var k := FirstStop(items, fails);
            k <= |bs| && Batches(items[..k]) == bs[..k]
            && (items[k].None? <==> k == |bs|) && (k < |bs| ==> items[k] == Some(bs[k]))
            && Batches(items[..k + 1]) == Processed(bs, k)
  {
    var items := Published(bs) + [None];
    var k := FirstStop(items, fails);
    StopOfPublished(bs, fails);
    assert items[..k] == Published(bs)[..k];
    BatchesOfPublished(bs, k);
    if k < |bs| {
      assert items[..k + 1] == Published(bs)[..k + 1];
      BatchesOfPublished(bs, k + 1);
    } else {
      assert items[..k + 1] == Published(bs) + [None];
      assert (Published(bs) + [None])[..|bs|] == Published(bs);
      BatchesOfPublished(bs, |bs|);
    }
  }
}
