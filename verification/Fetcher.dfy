/**
  `fetch_files` (tunstrap/fetcher.py): one SFTP channel per node, which may fail
  to open, on entering, before any of the files, or on leaving. What the server
  does is an input.
*/
module Fetcher {
  import opened Wrappers

  const MAX_FETCH_BYTES := 0x10_0000

  // EFBIG is this program's own; the rest is a status or exception name taken as it comes.
  datatype Code = EfBig | Transport(code: int)

  datatype Spec = Spec(name: string, required: bool)

  // What the server does with one file: stat's size (or none), then the bytes read, or a failure of
  // either step. A read returns at most one byte more than the cap.
  datatype Answer =
    | StatFails(code: int)
    | ReadFails(size: Option<nat>, code: int)
    | Data(size: Option<nat>, content: seq<bv8>)

  // DiesBefore(0) is a failure on entering the channel, DiesBefore(number of files) one on leaving.
  datatype Channel = NeverOpens(code: int) | DiesBefore(k: nat, code: int) | Survives

  // The fields of FetchedFile. The digest is a function of the content and is left out.
  datatype FetchedFile = FetchedFile(content: Option<seq<bv8>>, size: Option<nat>, error: Option<Code>)

  // FetchedFile._validate_xor
  predicate Valid(f: FetchedFile) {
    && (f.content.Some? <==> f.error.None?)
    && (f.content.Some? ==> f.size.Some?)
    && (f.error.Some? ==> f.size.None?)
  }

  function Failed(code: Code): FetchedFile { FetchedFile(None, None, Some(code)) }

  predicate TooLarge(size: Option<nat>) { size.Some? && size.value > MAX_FETCH_BYTES }

  // A sound result, and the right one: the content just when both looks at the size allow it.
  predicate Resolves(a: Answer, f: FetchedFile) {
    && Valid(f) && (f.size.Some? ==> f.size.value <= MAX_FETCH_BYTES)
    && (f.error.None? <==> a.Data? && !TooLarge(a.size) && |a.content| <= MAX_FETCH_BYTES)
    && (f.error.None? ==> f.content == Some(a.content) && f.size == Some(|a.content|))
    && (f.error == Some(EfBig) <==> !a.StatFails? && (TooLarge(a.size) || (a.Data? && |a.content| > MAX_FETCH_BYTES)))
    && (f.error.Some? && f.error.value.Transport? ==> !a.Data? && f.error.value.code == a.code)
  }

  method FetchOne(a: Answer) returns (f: FetchedFile)
    ensures Resolves(a, f)
  {
    match a {
      case StatFails(code) =>
        return Failed(Transport(code));
      case ReadFails(size, code) =>
        if TooLarge(size) { return Failed(EfBig); }
        return Failed(Transport(code));
      case Data(size, content) =>
        if TooLarge(size) || |content| > MAX_FETCH_BYTES { return Failed(EfBig); }
        return FetchedFile(Some(content), Some(|content|), None);
    }
  }

  // What a right result is, by numbers: content of at most 1 MiB (1048576 bytes), as long as the size
  // that stat reports, if any, is no larger; EFBIG when either is; the transport's code otherwise.
  lemma {:induction false} ResultExactly(a: Answer, f: FetchedFile)
    requires Resolves(a, f)
    ensures match a
            case StatFails(code) => f.content.None? && f.error == Some(Transport(code))
            case ReadFails(size, code) =>
              f.content.None? && f.error == Some(if size.Some? && size.value > 1048576 then EfBig else Transport(code))
            case Data(size, content) =>
              if (size.Some? && size.value > 1048576) || |content| > 1048576
              then f.content.None? && f.error == Some(EfBig)
              else f.content == Some(content) && f.size == Some(|content|) && f.error.None?
  {
    if f.error.Some? { assert f.error.value.EfBig? || f.error.value.Transport?; }
  }

  // ------------------------------------------------------------ the whole node

  predicate Distinct(specs: seq<Spec>) {
    forall i, j :: 0 <= i < |specs| && 0 <= j < |specs| && specs[i].name == specs[j].name ==> i == j
  }

  // How many files get their turn.
  function Reached(specs: seq<Spec>, c: Channel): nat {
    match c
    case NeverOpens(_) => 0
    case DiesBefore(k, _) => if k < |specs| then k else |specs|
    case Survives => |specs|
  }

  function ResultOf(specs: seq<Spec>, results: map<string, FetchedFile>, i: nat): FetchedFile
    requires i < |specs|
  {
    if specs[i].name in results then results[specs[i].name] else Failed(EfBig)
  }

  ghost predicate Named(specs: seq<Spec>, n: nat, name: string)
    requires n <= |specs|
  {
    exists i :: 0 <= i < n && specs[i].name == name
  }

  // results holds exactly the names of specs[..n].
  ghost predicate Covers(specs: seq<Spec>, results: map<string, FetchedFile>, n: nat)
    requires n <= |specs|
  {
    && (forall i :: 0 <= i < n ==> specs[i].name in results)
    && (forall name :: name in results ==> Named(specs, n, name))
  }

  // The required names among specs[..n] that came out as errors, in order.
  function RequiredErrors(specs: seq<Spec>, results: map<string, FetchedFile>, n: nat): seq<string>
    requires n <= |specs|
  {
    if n == 0 then []
    else
      RequiredErrors(specs, results, n - 1)
      + if specs[n - 1].required && ResultOf(specs, results, n - 1).error.Some? then [specs[n - 1].name] else []
  }

  lemma {:induction false} ErrorsFrame(specs: seq<Spec>, before: map<string, FetchedFile>, after: map<string,
                                       FetchedFile>, n: nat)
    requires n <= |specs| && forall i: nat :: i < n ==> ResultOf(specs, before, i) == ResultOf(specs, after, i)
    ensures RequiredErrors(specs, before, n) == RequiredErrors(specs, after, n)
  {
    if n > 0 {
      ErrorsFrame(specs, before, after, n - 1);
    }
  }

  // One more result, for specs[n], leaves what is known of specs[..n] as it was.
  lemma {:induction false} AddResult(specs: seq<Spec>, results: map<string, FetchedFile>, n: nat, f: FetchedFile)
    requires Distinct(specs) && n < |specs| && Covers(specs, results, n)
    ensures Covers(specs, results[specs[n].name := f], n + 1) && specs[n].name !in results
    ensures forall i: nat :: i < n ==> ResultOf(specs, results[specs[n].name := f], i) == ResultOf(specs, results, i)
    ensures RequiredErrors(specs, results[specs[n].name := f], n) == RequiredErrors(specs, results, n)
  {
    var more := results[specs[n].name := f];
    forall name | name in more
      ensures Named(specs, n + 1, name)
    {
      if name == specs[n].name {
        assert specs[n].name == name;
      } else {
        assert Named(specs, n, name);
      }
    }
    ErrorsFrame(specs, results, more, n);
  }

  // Every file of specs[..n] beyond the first `from` has the channel's code; those keep their result.
  ghost predicate Inherited(specs: seq<Spec>, before: map<string, FetchedFile>, from: nat, code: int,
                            all: map<string, FetchedFile>, required: seq<string>, n: nat)
    requires from <= n <= |specs|
  {
    && Covers(specs, all, n) && required == RequiredErrors(specs, all, n)
    && forall i: nat :: i < n ==>
         ResultOf(specs, all, i) == if i < from then ResultOf(specs, before, i) else Failed(Transport(code))
  }

  lemma {:induction false} InheritNext(specs: seq<Spec>, before: map<string, FetchedFile>, from: nat, code: int,
                                       all: map<string, FetchedFile>, required: seq<string>, n: nat)
    requires Distinct(specs) && from <= n < |specs| && Inherited(specs, before, from, code, all, required, n)
    ensures specs[n].name !in all
    ensures (Inherited(specs, before, from, code, all[specs[n].name := Failed(Transport(code))],
                       required + if specs[n].required then [specs[n].name] else [], n + 1))
  {
    AddResult(specs, all, n, Failed(Transport(code)));
  }

  function LaterOf(i: nat, from: nat): nat { if i <= from then from else i }

  // Where the loop below stands at the i-th name: it changes nothing before the first without a result.
  ghost predicate Inheriting(specs: seq<Spec>, before: map<string, FetchedFile>, from: nat, code: int,
                             all: map<string, FetchedFile>, required: seq<string>, i: nat)
    requires from <= |specs| && i <= |specs|
  {
    exists n: nat :: n == LaterOf(i, from) && Inherited(specs, before, from, code, all, required, n)
  }

  // One turn of the loop below.
  method RecordOne(specs: seq<Spec>, ghost before: map<string, FetchedFile>, code: int,
                   all: map<string, FetchedFile>, required: seq<string>, i: nat, ghost from: nat)
    returns (more: map<string, FetchedFile>, longer: seq<string>)
    requires Distinct(specs) && from <= |specs| && i < |specs|
    requires Inheriting(specs, before, from, code, all, required, i)
    ensures Inheriting(specs, before, from, code, more, longer, i + 1)
  {
    more, longer := all, required;
    if i >= from { InheritNext(specs, before, from, code, all, required, i); }
    if specs[i].name !in all {
      more := all[specs[i].name := Failed(Transport(code))];
      longer := required + if specs[i].required then [specs[i].name] else [];
    }
  }

  // _record_channel_failure: names without a result inherit the channel's code.
  method RecordChannelFailure(specs: seq<Spec>, results: map<string, FetchedFile>, failures: seq<string>, code: int,
                              ghost from: nat)
    returns (all: map<string, FetchedFile>, required: seq<string>)
    requires Distinct(specs) && from <= |specs| && Covers(specs, results, from)
    requires failures == RequiredErrors(specs, results, from)
    ensures Inherited(specs, results, from, code, all, required, |specs|)
  {
    all, required := results, failures;
    assert Inherited(specs, results, from, code, all, required, from);
    var i: nat := 0;
    while i < |specs|
      invariant i <= |specs| && Inheriting(specs, results, from, code, all, required, i)
    {
      all, required := RecordOne(specs, results, code, all, required, i, from);
      i := i + 1;
    }
  }

  // The first n files have had their turn.
  ghost predicate Turns(specs: seq<Spec>, answers: seq<Answer>, results: map<string, FetchedFile>,
                        required: seq<string>, n: nat)
    requires n <= |specs| == |answers|
  {
    && Covers(specs, results, n) && required == RequiredErrors(specs, results, n)
    && forall i: nat :: i < n ==> Resolves(answers[i], ResultOf(specs, results, i))
  }

  lemma {:induction false} TakeTurn(specs: seq<Spec>, results: map<string, FetchedFile>, required: seq<string>,
                                    answers: seq<Answer>, n: nat, f: FetchedFile)
    requires Distinct(specs) && n < |specs| == |answers|
    requires Turns(specs, answers, results, required, n) && Resolves(answers[n], f)
    ensures Turns(specs, answers, results[specs[n].name := f],
                  required + if f.error.Some? && specs[n].required then [specs[n].name] else [], n + 1)
  {
    AddResult(specs, results, n, f);
    var more := results[specs[n].name := f];
    forall i: nat | i < n + 1
      ensures Resolves(answers[i], ResultOf(specs, more, i))
    {
    }
  }

  // The loop inside the channel, up to the point where the channel dies, if it does.
  method FetchInTurn(specs: seq<Spec>, answers: seq<Answer>, channel: Channel)
    returns (results: map<string, FetchedFile>, required: seq<string>)
    requires Distinct(specs) && |answers| == |specs| && !channel.NeverOpens?
    ensures Turns(specs, answers, results, required, Reached(specs, channel))
  {
    results, required := map[], [];
    var n: nat := 0;
    while n < |specs| && !(channel.DiesBefore? && channel.k == n)
      invariant n <= Reached(specs, channel)
      invariant Turns(specs, answers, results, required, n)
    {
      var fetched := FetchOne(answers[n]);
      TakeTurn(specs, results, required, answers, n, fetched);
      results := results[specs[n].name := fetched];
      required := required + if fetched.error.Some? && specs[n].required then [specs[n].name] else [];
      n := n + 1;
    }
  }

  // Every name gets exactly one result: its own when its turn came, the channel's code otherwise.
  method FetchFiles(specs: seq<Spec>, answers: seq<Answer>, channel: Channel)
    returns (results: map<string, FetchedFile>, required: seq<string>)
    requires Distinct(specs) && |answers| == |specs|
    ensures Covers(specs, results, |specs|) && required == RequiredErrors(specs, results, |specs|)
    ensures Fair(specs, answers, channel, results)
  {
    results, required := map[], [];
    if specs == [] { return; }
    if channel.NeverOpens? {
      results, required := RecordChannelFailure(specs, results, required, channel.code, 0);
      return;
    }
    results, required := FetchInTurn(specs, answers, channel);
    if channel.DiesBefore? {
      results, required := RecordChannelFailure(specs, results, required, channel.code, Reached(specs, channel));
    }
  }

  // Each file has its own result when its turn came, and the channel's code otherwise.
  ghost predicate Fair(specs: seq<Spec>, answers: seq<Answer>, channel: Channel, results: map<string, FetchedFile>)
    requires |answers| == |specs|
  {
    && (forall i: nat :: i < Reached(specs, channel) ==> Resolves(answers[i], ResultOf(specs, results, i)))
    && (forall i: nat :: Reached(specs, channel) <= i < |specs| ==>
          !channel.Survives? && ResultOf(specs, results, i) == Failed(Transport(channel.code)))
  }

  // ------------------------------------------------------- what a reader wants

  // The result under each name, by what the channel does: its own when the channel is up at its turn,
  // and the channel's code, with no content, for it and all after it when the channel has gone.
  lemma {:induction false} EachResult(specs: seq<Spec>, answers: seq<Answer>, channel: Channel,
                                      results: map<string, FetchedFile>, i: nat)
    requires |answers| == |specs| && i < |specs| && Covers(specs, results, |specs|)
    requires Fair(specs, answers, channel, results)
    ensures specs[i].name in results
    ensures match channel
            case Survives => Resolves(answers[i], results[specs[i].name])
            case NeverOpens(code) => results[specs[i].name] == FetchedFile(None, None, Some(Transport(code)))
            case DiesBefore(k, code) =>
              if i < k then Resolves(answers[i], results[specs[i].name])
              else results[specs[i].name] == FetchedFile(None, None, Some(Transport(code)))
  {
    assert specs[i].name in results && ResultOf(specs, results, i) == results[specs[i].name];
    assert forall code :: Failed(code) == FetchedFile(None, None, Some(code));
  }

  ghost predicate Listed(specs: seq<Spec>, results: map<string, FetchedFile>, n: nat, name: string)
    requires n <= |specs|
  {
    exists i: nat :: i < n && specs[i].name == name && specs[i].required && ResultOf(specs, results, i).error.Some?
  }

  // The failures are the required names whose result is an error, without repeats.
  lemma {:induction false} ErrorsExact(specs: seq<Spec>, results: map<string, FetchedFile>, n: nat)
    requires Distinct(specs) && n <= |specs|
    ensures var r := RequiredErrors(specs, results, n); forall name :: name in r <==> Listed(specs, results, n, name)
    ensures var r := RequiredErrors(specs, results, n); forall i, j :: 0 <= i < j < |r| ==> r[i] != r[j]
  {
    if n > 0 {
      ErrorsExact(specs, results, n - 1);
      var before, r := RequiredErrors(specs, results, n - 1), RequiredErrors(specs, results, n);
      forall name
        ensures name in r <==> Listed(specs, results, n, name)
      {
        assert name in r <==> name in before || (name == specs[n - 1].name && r != before);
        assert Listed(specs, results, n - 1, name) ==> Listed(specs, results, n, name);
      }
      assert forall i: nat :: i < n - 1 ==> specs[i].name != specs[n - 1].name;
      assert !Listed(specs, results, n - 1, specs[n - 1].name);
      assert specs[n - 1].name !in before;
    }
  }

  // ... and in the order of the request: a required file that fails later is listed later.
  lemma {:induction false} ErrorsInOrder(specs: seq<Spec>, results: map<string, FetchedFile>, n: nat, m: nat)
    requires n <= m <= |specs|
    ensures RequiredErrors(specs, results, n) <= RequiredErrors(specs, results, m)
  {
    if n < m {
      ErrorsInOrder(specs, results, n, m - 1);
    }
  }

  // Whatever the channel does, each result is a success or an error, and no success is over the cap.
  lemma {:induction false} EveryResultSound(specs: seq<Spec>, answers: seq<Answer>, channel: Channel,
                                            results: map<string, FetchedFile>, name: string)
    requires |answers| == |specs| && Covers(specs, results, |specs|) && name in results
    requires Fair(specs, answers, channel, results)
    ensures var f := results[name];
            && (f.content.Some? <==> f.error.None?)
            && (f.content.Some? ==> f.size == Some(|f.content.value|) && |f.content.value| <= 1048576)
  {
    assert Named(specs, |specs|, name);
    var i: nat :| i < |specs| && specs[i].name == name;
    assert ResultOf(specs, results, i) == results[name];
  }
}
