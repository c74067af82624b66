/**
  `atomic_write` (tunstrap/session.py) over `write_all` (tunstrap/fdio.py): a
  temp file, then a rename. The disk keeps the list of all states it has been
  in, so "whatever is visible after a crash at any step" is "any state in it".
*/
module AtomicWrite {
  import opened Wrappers

  type Bytes = seq<bv8>

  datatype Entry = Temp | Final | Elsewhere(name: string)

  datatype Failure =
    | TempExists | CreateFailed | NoProgress(remaining: nat) | WriteFailed | ReplaceFailed | UnlinkFailed | CloseFailed

  // One os.write: how many bytes it took, or an exception.
  datatype WriteAnswer = Wrote(n: int) | Raised

  class Disk {
    var files: map<Entry, Bytes>
    ghost var seen: seq<map<Entry, Bytes>>  // every state so far, the current one last

    ghost predicate Valid()
      reads this
    {
      seen != [] && seen[|seen| - 1] == files
    }

    constructor (files: map<Entry, Bytes>)
      ensures Valid() && this.files == files && seen == [files]
    {
      this.files, seen := files, [files];
    }

    method Put(e: Entry, content: Bytes)
      requires Valid()
      modifies this
      ensures Valid() && files == old(files)[e := content] && seen == old(seen) + [files]
    {
      files := files[e := content];
      seen := seen + [files];
    }

    // os.replace
    method Replace()
      requires Valid() && Temp in files
      modifies this
      ensures Valid() && files == old(files)[Final := old(files)[Temp]] - {Temp} && seen == old(seen) + [files]
    {
      files := files[Final := files[Temp]] - {Temp};
      seen := seen + [files];
    }

    method Unlink(e: Entry)
      requires Valid()
      modifies this
      ensures Valid() && files == old(files) - {e} && seen == old(seen) + [files]
    {
      files := files - {e};
      seen := seen + [files];
    }
  }

  ghost predicate SameButTemp(a: map<Entry, Bytes>, b: map<Entry, Bytes>) { a - {Temp} == b - {Temp} }

  // Every write takes something, however little.
  predicate Progressing(answers: seq<WriteAnswer>) {
    forall k :: 0 <= k < |answers| ==> answers[k].Wrote? && answers[k].n > 0
  }

  // write_all: loops past short writes; a write that takes nothing is an error.
  method WriteAll(d: Disk, content: Bytes, answers: seq<WriteAnswer>) returns (r: Result<(), Failure>)
    requires d.Valid() && Temp in d.files && d.files[Temp] == []
    modifies d
    ensures d.Valid() && Temp in d.files && SameButTemp(d.files, old(d.files)) && d.files[Temp] <= content
    ensures old(d.seen) <= d.seen
    ensures forall k :: |old(d.seen)| <= k < |d.seen| ==> SameButTemp(d.seen[k], old(d.files))
    ensures r.Ok? ==> d.files[Temp] == content
    ensures r.Err? ==> r.error == WriteFailed || r.error.NoProgress?
    ensures r.Err? && r.error.NoProgress? ==> r.error.remaining == |content| - |d.files[Temp]| > 0
    // short writes alone never make it fail, and empty content needs no write at all
    ensures Progressing(answers) || content == [] ==> r.Ok?
    ensures r == Err(WriteFailed) ==> Raised in answers
  {
    var done := 0;
    var call := 0;
    while done < |content|
      invariant 0 <= done <= |content| && d.Valid()
      invariant Temp in d.files && SameButTemp(d.files, old(d.files)) && d.files[Temp] == content[..done]
      invariant old(d.seen) <= d.seen
      invariant forall k :: |old(d.seen)| <= k < |d.seen| ==> SameButTemp(d.seen[k], old(d.files))
      invariant call >= 0
    {
      // A call past the given answers takes everything that is left.
      var answer := if call < |answers| then answers[call] else Wrote(|content| - done);
      call := call + 1;
      if answer.Raised? { return Err(WriteFailed); }
      if answer.n <= 0 { return Err(NoProgress(|content| - done)); }
      var n := if answer.n <= |content| - done then answer.n else |content| - done;
      assert content[..done] + content[done..done + n] == content[..done + n];
      d.Put(Temp, d.files[Temp] + content[done..done + n]);
      done := done + n;
    }
    assert content[..done] == content;
    return Ok(());
  }

  // Opening the temp file exclusively; then the writes; then the rename; then the close. `createOk`,
  // `replaceOk`, `unlinkOk` and `closeOk` say whether those calls succeed.
  method Write(d: Disk, content: Bytes, createOk: bool, answers: seq<WriteAnswer>, replaceOk: bool, unlinkOk: bool,
               closeOk: bool)
    returns (r: Result<(), Failure>)
    requires d.Valid()
    modifies d
    ensures d.Valid() && old(d.seen) <= d.seen
    // Whenever it stops, the final name holds the old content or the whole new one, and no other
    // file has changed.
    ensures forall k :: |old(d.seen)| <= k < |d.seen| ==>
              SameButTemp(d.seen[k], old(d.files)) || SameButTemp(d.seen[k], old(d.files)[Final := content])
    ensures r.Ok? ==> Temp !in old(d.files) && d.files == old(d.files)[Final := content]
    ensures r.Ok? ==> createOk && replaceOk && closeOk
    ensures r.Err? && r != Err(CloseFailed) ==> SameButTemp(d.files, old(d.files))
    // A handled failure leaves no temp file of its own; only one that was there before blocks.
    ensures r == Err(TempExists) <==> Temp in old(d.files)
    ensures r.Err? && r != Err(UnlinkFailed) && r != Err(CloseFailed) ==> d.files == old(d.files)
    ensures unlinkOk ==> r != Err(UnlinkFailed)
    ensures r == Err(CreateFailed) <==> Temp !in old(d.files) && !createOk
    ensures r == Err(ReplaceFailed) ==> createOk && !replaceOk
    // A failing close raises whatever came before it, so the new content may be in place all the same.
    ensures r == Err(CloseFailed) <==> Temp !in old(d.files) && createOk && !closeOk
    ensures r == Err(CloseFailed) ==>
              d.files == old(d.files)[Final := content]
              || (SameButTemp(d.files, old(d.files)) && (unlinkOk ==> d.files == old(d.files)))
    ensures !replaceOk ==> SameButTemp(d.files, old(d.files))
    ensures Temp !in old(d.files) && createOk && replaceOk && Progressing(answers) ==>
              d.files == old(d.files)[Final := content] && (closeOk ==> r.Ok?)
  {
    if Temp in d.files { return Err(TempExists); }
    if !createOk { return Err(CreateFailed); }
    d.Put(Temp, []);
    assert d.files - {Temp} == old(d.files);
    r := FillAndRename(d, content, answers, replaceOk, unlinkOk, old(d.files));
    if !closeOk { r := Err(CloseFailed); }
  }

  // The try block and its handler; `before` is what the disk held before the temp file was made.
  method FillAndRename(d: Disk, content: Bytes, answers: seq<WriteAnswer>, replaceOk: bool, unlinkOk: bool,
                       ghost before: map<Entry, Bytes>)
    returns (r: Result<(), Failure>)
    requires d.Valid() && Temp in d.files && d.files[Temp] == [] && Temp !in before && d.files - {Temp} == before
    modifies d
    ensures d.Valid() && old(d.seen) <= d.seen
    ensures forall k :: |old(d.seen)| <= k < |d.seen| ==>
              SameButTemp(d.seen[k], before) || SameButTemp(d.seen[k], before[Final := content])
    ensures r.Ok? ==> replaceOk && d.files == before[Final := content]
    ensures r.Err? ==> SameButTemp(d.files, before) && r.error !in {TempExists, CreateFailed, CloseFailed}
    ensures r.Err? && r != Err(UnlinkFailed) ==> d.files == before
    ensures unlinkOk ==> r != Err(UnlinkFailed)
    ensures r == Err(ReplaceFailed) ==> !replaceOk
    ensures replaceOk && Progressing(answers) ==> r.Ok?
  {
    assert before - {Temp} == before;
    var w := WriteAll(d, content, answers);
    if w.Ok? && replaceOk {
      ghost var written := d.files;
      d.Replace();
      assert written[Final := content] - {Temp} == (written - {Temp})[Final := content];
      return Ok(());
    }
    if !unlinkOk { return Err(UnlinkFailed); }
    d.Unlink(Temp);
    return Err(if w.Err? then w.error else ReplaceFailed);
  }

  // However an attempt has failed, short of a failing unlink, the same process can try again, and
  // nothing is in the way of the second attempt. (After a crash the leftover temp file is.)
  method Retry(d: Disk, content: Bytes, createOk: bool, answers: seq<WriteAnswer>, replaceOk: bool, closeOk: bool)
    returns (first: Result<(), Failure>, second: Result<(), Failure>)
    requires d.Valid() && Temp !in d.files
    modifies d
    ensures first.Ok? ==> createOk && replaceOk && closeOk
    ensures second.Ok?
    ensures d.files == old(d.files)[Final := content]
  {
    first := Write(d, content, createOk, answers, replaceOk, true, closeOk);
    second := Write(d, content, true, [], true, true, true);
  }
}
