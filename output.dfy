/**
 * What the buffering snapshots write, as paths and contents: the per-batch
 * buffer `batch_yaml_data` (a dict from folder to a list of
 * `(file_name, content)`), its JSON copy under rewritten folder names, and
 * the file writes made from either.
 */
module Output {
  import opened Wrappers
  import opened PyText
  import opened Convert
  import opened Classify
  import OrderedDict

  /** `batch_yaml_data`: folder (or key) to the `(extension, document)` pairs buffered there. */
  type Buffer = seq<(string, seq<(string, Value)>)>

  /** One file written: its path and the value dumped into it. */
  type FileWrite = (string, Value)

  /** The folder a buffer key names: the key itself, or the key joined onto a root. */
  function Located(root: Option<string>, folder: string): string
  {
    match root
    case None => folder
    case Some(base) => PathJoin(base, folder)
  }

  /** The writes of one folder: `os.path.join(folder, f"{file_name}{ext}")` for each entry, in order. */
  function FolderWrites(folder: string, entries: seq<(string, Value)>, ext: string): (r: seq<FileWrite>)
    ensures |r| == |entries|
    ensures forall j :: 0 <= j < |entries| ==> r[j] == (PathJoin(folder, entries[j].0 + ext), entries[j].1)
  {
    seq(|entries|, j requires 0 <= j < |entries| => (PathJoin(folder, entries[j].0 + ext), entries[j].1))
  }

  /** The writes of a whole buffer, folder by folder. */
  function BufferWrites(buf: Buffer, root: Option<string>, ext: string): seq<FileWrite>
  {
    if buf == [] then []
    else
      var (folder, entries) := buf[|buf| - 1];
      BufferWrites(buf[..|buf| - 1], root, ext) + FolderWrites(Located(root, folder), entries, ext)
  }

  /**
   * What a task run on a thread pool whose results are never read leaves
   * behind: its file, or nothing when it failed.
   */
  function Swallowed(r: Result<Option<FileWrite>>): Option<FileWrite>
  {
    match r
    case Ok(file) => file
    case Fail(_) => None
  }

  /** The write an optional write makes: none or one. */
  function Emitted(x: Option<FileWrite>): seq<FileWrite>
  {
    if x.Some? then [x.value] else []
  }

  /** The files actually written, in order, from a sequence of optional writes. */
  function Written(xs: seq<Option<FileWrite>>): (r: seq<FileWrite>)
    ensures |r| <= |xs|
  {
    if xs == [] then []
    else Written(xs[..|xs| - 1]) + Emitted(xs[|xs| - 1])
  }

  /** A write is made exactly when some element asks for it. */
  lemma {:induction false} WrittenSpec(xs: seq<Option<FileWrite>>)
    ensures forall w :: w in Written(xs) <==> Some(w) in xs
  {
    if xs != [] {
      WrittenSpec(xs[..|xs| - 1]);
      assert xs == xs[..|xs| - 1] + [xs[|xs| - 1]];
    }
  }

  lemma WrittenSnoc(xs: seq<Option<FileWrite>>, x: Option<FileWrite>)
    ensures Written(xs + [x]) == Written(xs) + Emitted(x)
  {
    assert (xs + [x])[..|xs|] == xs;
  }

  lemma {:induction false} WrittenAppend(xs: seq<Option<FileWrite>>, ys: seq<Option<FileWrite>>)
    ensures Written(xs + ys) == Written(xs) + Written(ys)
  {
    if ys == [] {
      assert xs + ys == xs;
    } else {
      var init, last := ys[..|ys| - 1], ys[|ys| - 1];
      assert ys == init + [last];
      calc {
        Written(xs + ys);
        { AppendAssoc(xs, init, [last]); }
        Written((xs + init) + [last]);
        { WrittenSnoc(xs + init, last); }
        Written(xs + init) + Emitted(last);
        { WrittenAppend(xs, init); }
        Written(xs) + Written(init) + Emitted(last);
        { AppendAssoc(Written(xs), Written(init), Emitted(last)); WrittenSnoc(init, last); }
        Written(xs) + Written(ys);
      }
    }
  }

  /**
   * What the pool tasks of a run leave behind, one slot per record, when
   * `task` is what one record's task returns and the results are never read.
   */
  function TaskFiles<R>(recs: seq<R>, task: R -> Result<Option<FileWrite>>): (r: seq<Option<FileWrite>>)
    ensures |r| == |recs|
  {
    seq(|recs|, i requires 0 <= i < |recs| => Swallowed(task(recs[i])))
  }

  lemma TaskFilesSnoc<R>(recs: seq<R>, rec: R, task: R -> Result<Option<FileWrite>>)
    ensures TaskFiles(recs + [rec], task) == TaskFiles(recs, task) + [Swallowed(task(rec))]
  {
  }

  /**
   * The files of a run are exactly those of the records whose task
   * succeeded with a write; a failing task adds nothing.
   */
  lemma TaskFilesWritten<R>(recs: seq<R>, task: R -> Result<Option<FileWrite>>)
    ensures var files := Written(TaskFiles(recs, task));
            (forall i :: 0 <= i < |recs| && task(recs[i]).Ok? && task(recs[i]).value.Some? ==>
               task(recs[i]).value.value in files)
            && (forall w :: w in files ==> exists i :: 0 <= i < |recs| && task(recs[i]) == Ok(Some(w)))
  {
    var xs := TaskFiles(recs, task);
    WrittenSpec(xs);
    forall w | w in Written(xs)
      ensures exists i :: 0 <= i < |recs| && task(recs[i]) == Ok(Some(w))
    {
      var i :| 0 <= i < |xs| && xs[i] == Some(w);
      assert task(recs[i]) == Ok(Some(w));
    }
    forall i | 0 <= i < |recs| && task(recs[i]).Ok? && task(recs[i]).value.Some?
      ensures task(recs[i]).value.value in Written(xs)
    {
      assert xs[i] == Some(task(recs[i]).value.value);
    }
  }

  /** The number of buffered documents. */
  function EntryCount(buf: Buffer): nat
  {
    if buf == [] then 0 else EntryCount(buf[..|buf| - 1]) + |buf[|buf| - 1].1|
  }

  /**
   * One file per buffered document, and each document is written, under its
   * own name, into its own folder.
   */
  lemma {:induction false} BufferWritesSpec(buf: Buffer, root: Option<string>, ext: string)
    ensures |BufferWrites(buf, root, ext)| == EntryCount(buf)
    ensures forall i, j :: 0 <= i < |buf| && 0 <= j < |buf[i].1| ==>
              (PathJoin(Located(root, buf[i].0), buf[i].1[j].0 + ext), buf[i].1[j].1) in BufferWrites(buf, root, ext)
  {
    if buf != [] {
      var init := buf[..|buf| - 1];
      BufferWritesSpec(init, root, ext);
      var (folder, entries) := buf[|buf| - 1];
      var w := BufferWrites(buf, root, ext);
      assert w == BufferWrites(init, root, ext) + FolderWrites(Located(root, folder), entries, ext);
      forall i, j | 0 <= i < |buf| && 0 <= j < |buf[i].1|
        ensures (PathJoin(Located(root, buf[i].0), buf[i].1[j].0 + ext), buf[i].1[j].1) in w
      {
        if i < |init| {
          assert buf[i] == init[i];
        } else {
          assert FolderWrites(Located(root, folder), entries, ext)[j] == (PathJoin(Located(root, buf[i].0), buf[i].1[j].0 + ext), buf[i].1[j].1);
        }
      }
    }
  }

  /** The nested loops that write every buffered document of every folder. */
  method WriteBuffer(buf: Buffer, root: Option<string>, ext: string) returns (writes: seq<FileWrite>)
    ensures writes == BufferWrites(buf, root, ext)
  {
    writes := [];
    var i := 0;
    while i < |buf|
      invariant 0 <= i <= |buf|
      invariant writes == BufferWrites(buf[..i], root, ext)
    {
      var (folder, entries) := buf[i];
      var path := Located(root, folder);
      var j := 0;
      ghost var before := writes;
      while j < |entries|
        invariant 0 <= j <= |entries|
        invariant writes == before + FolderWrites(path, entries[..j], ext)
      {
        writes := writes + [(PathJoin(path, entries[j].0 + ext), entries[j].1)];
        j := j + 1;
        assert FolderWrites(path, entries[..j], ext) == FolderWrites(path, entries[..j - 1], ext) + [(PathJoin(path, entries[j - 1].0 + ext), entries[j - 1].1)];
      }
      assert entries[..j] == entries;
      assert buf[..i + 1][..i] == buf[..i];
      i := i + 1;
    }
    assert buf[..i] == buf;
  }

  // ---------------------------------------------------------------------
  // The JSON copy

  /** `batch_json_data[folder.replace(yamlBase, jsonBase)] = entries` for each folder, in order. */
  function JsonBuffer(buf: Buffer, yamlBase: string, jsonBase: string): Buffer
  {
    if buf == [] then []
    else
      var (folder, entries) := buf[|buf| - 1];
      OrderedDict.Put(JsonBuffer(buf[..|buf| - 1], yamlBase, jsonBase), Replace(folder, yamlBase, jsonBase), entries)
  }

  /** The rewritten folder names, in order. */
  function JsonFolders(buf: Buffer, yamlBase: string, jsonBase: string): (r: seq<string>)
    ensures |r| == |buf|
  {
    seq(|buf|, i requires 0 <= i < |buf| => Replace(buf[i].0, yamlBase, jsonBase))
  }

  /**
   * When the rewritten folder names are distinct, the JSON copy has one
   * folder per YAML folder, in the same order, named by the rewrite and
   * holding the same entries.
   */
  lemma {:induction false} JsonBufferSpec(buf: Buffer, yamlBase: string, jsonBase: string)
    requires forall i, j :: 0 <= i < j < |buf| ==> JsonFolders(buf, yamlBase, jsonBase)[i] != JsonFolders(buf, yamlBase, jsonBase)[j]
    ensures var jb := JsonBuffer(buf, yamlBase, jsonBase);
            OrderedDict.Keys(jb) == JsonFolders(buf, yamlBase, jsonBase)
            && OrderedDict.Values(jb) == OrderedDict.Values(buf)
  {
    if buf != [] {
      var n := |buf| - 1;
      var init := buf[..n];
      var js := JsonFolders(buf, yamlBase, jsonBase);
      assert JsonFolders(init, yamlBase, jsonBase) == js[..n];
      JsonBufferSpec(init, yamlBase, jsonBase);
      assert js[n] !in js[..n] by {
        forall i | 0 <= i < n ensures js[..n][i] != js[n] {
          assert js[i] != js[n];
        }
      }
      JsonBufferStep(buf, yamlBase, jsonBase);
    }
  }

  /** One more folder whose rewritten name is new extends the JSON copy by one pair. */
  lemma JsonBufferStep(buf: Buffer, yamlBase: string, jsonBase: string)
    requires buf != []
    requires var init := buf[..|buf| - 1];
             OrderedDict.Keys(JsonBuffer(init, yamlBase, jsonBase)) == JsonFolders(init, yamlBase, jsonBase)
             && OrderedDict.Values(JsonBuffer(init, yamlBase, jsonBase)) == OrderedDict.Values(init)
             && Replace(buf[|buf| - 1].0, yamlBase, jsonBase) !in JsonFolders(init, yamlBase, jsonBase)
    ensures OrderedDict.Keys(JsonBuffer(buf, yamlBase, jsonBase)) == JsonFolders(buf, yamlBase, jsonBase)
    ensures OrderedDict.Values(JsonBuffer(buf, yamlBase, jsonBase)) == OrderedDict.Values(buf)
  {
    var n := |buf| - 1;
    var init := buf[..n];
    var (folder, entries) := buf[n];
    var jb0 := JsonBuffer(init, yamlBase, jsonBase);
    var key := Replace(folder, yamlBase, jsonBase);
    var jb := jb0 + [(key, entries)];
    assert JsonBuffer(buf, yamlBase, jsonBase) == jb;
    calc {
      OrderedDict.Keys(jb);
      OrderedDict.Keys(jb0) + [key];
      JsonFolders(init, yamlBase, jsonBase) + [key];
      JsonFolders(buf, yamlBase, jsonBase);
    }
    calc {
      OrderedDict.Values(jb);
      OrderedDict.Values(jb0) + [entries];
      OrderedDict.Values(init) + [entries];
      OrderedDict.Values(buf);
    }
  }

  /**
   * When the rewritten folder names are distinct, every buffered document is
   * also written under the rewritten name of its folder.
   */
  lemma JsonBufferWrites(buf: Buffer, yamlBase: string, jsonBase: string, root: Option<string>, ext: string)
    requires forall i, j :: 0 <= i < j < |buf| ==> JsonFolders(buf, yamlBase, jsonBase)[i] != JsonFolders(buf, yamlBase, jsonBase)[j]
    ensures forall i, j :: 0 <= i < |buf| && 0 <= j < |buf[i].1| ==>
              (PathJoin(Located(root, Replace(buf[i].0, yamlBase, jsonBase)), buf[i].1[j].0 + ext), buf[i].1[j].1)
                in BufferWrites(JsonBuffer(buf, yamlBase, jsonBase), root, ext)
  {
    var jb := JsonBuffer(buf, yamlBase, jsonBase);
    JsonBufferSpec(buf, yamlBase, jsonBase);
    BufferWritesSpec(jb, root, ext);
    forall i, j | 0 <= i < |buf| && 0 <= j < |buf[i].1|
      ensures (PathJoin(Located(root, Replace(buf[i].0, yamlBase, jsonBase)), buf[i].1[j].0 + ext), buf[i].1[j].1) in BufferWrites(jb, root, ext)
    {
      assert OrderedDict.Keys(jb)[i] == jb[i].0 && OrderedDict.Values(jb)[i] == jb[i].1;
      assert OrderedDict.Values(buf)[i] == buf[i].1;
    }
  }

  /** The loop that copies each YAML folder's entries under its rewritten name. */
  method CopyToJson(buf: Buffer, yamlBase: string, jsonBase: string) returns (json: Buffer)
    ensures json == JsonBuffer(buf, yamlBase, jsonBase)
  {
    json := [];
    var i := 0;
    while i < |buf|
      invariant 0 <= i <= |buf|
      invariant json == JsonBuffer(buf[..i], yamlBase, jsonBase)
    {
      var (folder, entries) := buf[i];
      assert buf[..i + 1][..i] == buf[..i];
      json := OrderedDict.Put(json, Replace(folder, yamlBase, jsonBase), entries);
      i := i + 1;
    }
    assert buf[..i] == buf;
  }

  /**
   * A YAML folder `yamlBase/rest` in whose `rest` the YAML base does not
   * occur becomes `jsonBase/rest`.
   */
  lemma RewriteFolder(yamlBase: string, jsonBase: string, rest: string)
    requires yamlBase != [] && !Occurs("/" + rest, yamlBase)
    ensures Replace(yamlBase + "/" + rest, yamlBase, jsonBase) == jsonBase + "/" + rest
  {
    assert yamlBase + "/" + rest == yamlBase + ("/" + rest);
    ReplaceLeading(yamlBase, "/" + rest, jsonBase);
    ReplaceAbsent("/" + rest, yamlBase, jsonBase);
  }
}
