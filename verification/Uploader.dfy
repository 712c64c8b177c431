/**
Upload and uploadMultipart over a remote store changed request by request. Every call is proved to be one
of the runs of MultipartUpload. `net` says how the attempts of each request end; the parts are sent one
after another.
*/
module Uploader {
  import opened PartSizes
  import opened Objects
  import opened MultipartUpload
  import opened UploadAnswers

  const DEFAULT_PART_CONCURRENCY := 4
  const MAX_PART_CONCURRENCY := 32

  /** The number of workers: never zero, which would block the pool for ever, and never more than there
      are parts. */
  function EffectiveConcurrency(configured: int, partCount: int): (n: int)
    ensures 1 <= n <= MAX_PART_CONCURRENCY
    ensures partCount > 0 ==> n <= partCount
    ensures 1 <= configured <= MAX_PART_CONCURRENCY && configured <= partCount ==> n == configured
    ensures configured <= 0 && partCount >= 4 ==> n == 4
    ensures configured > 32 && partCount >= 32 ==> n == 32
    ensures partCount > 0 && (partCount <= configured || (configured <= 0 && partCount <= 4)) && partCount <= 32 ==>
      n == partCount
  {
    var wanted := if configured <= 0 then DEFAULT_PART_CONCURRENCY else configured;
    var capped := if wanted > MAX_PART_CONCURRENCY then MAX_PART_CONCURRENCY else wanted;
    if partCount > 0 && capped > partCount then partCount else capped
  }

  ghost predicate Leads(file: Bytes, override: int, start: Run, trace: seq<Event>, run: Run)
    requires Uploadable(|file|, override)
  {
    CanPlay(file, override, start, trace) && Play(file, override, start, trace) == run
  }

  lemma LeadsOn(file: Bytes, override: int, start: Run, trace: seq<Event>, run: Run, e: Event)
    requires Uploadable(|file|, override)
    requires Leads(file, override, start, trace, run) && CanStep(file, override, run, e)
    ensures Leads(file, override, start, trace + [e], Step(file, override, run, e))
  {
    PlayMore(file, override, start, trace, e);
  }

  // ----- sorting the part list -----

  /** Ascending part numbers, each with its own content. */
  ghost predicate IsSorted(parts: seq<Part>, etags: Parts) {
    && (forall i :: 0 <= i < |parts| ==> parts[i].number in etags && parts[i].content == etags[parts[i].number])
    && (forall i, j :: 0 <= i < j < |parts| ==> parts[i].number < parts[j].number)
  }

  ghost predicate HasNumber(parts: seq<Part>, n: int) {
    exists i :: 0 <= i < |parts| && parts[i].number == n
  }

  lemma LargestIsLast(parts: seq<Part>, etags: Parts, n: nat)
    requires IsSorted(parts, etags) && forall i :: 0 <= i < |parts| ==> parts[i].number <= n
    requires HasNumber(parts, n)
    ensures parts != [] && parts == parts[..|parts| - 1] + [Part(n, etags[n])]
    ensures forall i :: 0 <= i < |parts| - 1 ==> parts[i].number <= n - 1
  {
    var m :| 0 <= m < |parts| && parts[m].number == n;
    var last := parts[|parts| - 1];
    assert last.number == n;
    assert last == Part(n, etags[n]);
  }

  lemma FrontHasNumber(parts: seq<Part>, k: int)
    requires HasNumber(parts, k) && parts[|parts| - 1].number != k
    ensures HasNumber(parts[..|parts| - 1], k)
  {
    var i :| 0 <= i < |parts| && parts[i].number == k;
    assert parts[..|parts| - 1][i] == parts[i];
  }

  /** There is only one such list. */
  lemma {:induction false} SortedListIsUnique(parts: seq<Part>, etags: Parts, n: nat)
    requires IsSorted(parts, etags) && forall i :: 0 <= i < |parts| ==> 1 <= parts[i].number <= n
    requires forall k :: k in etags && 1 <= k <= n ==> HasNumber(parts, k)
    ensures parts == PartsUpTo(etags, n)
  {
    if n > 0 {
      if n in etags {
        assert HasNumber(parts, n);
        LargestIsLast(parts, etags, n);
        var front := parts[..|parts| - 1];
        forall k | k in etags && 1 <= k <= n - 1 ensures HasNumber(front, k) {
          FrontHasNumber(parts, k);
        }
        SortedListIsUnique(front, etags, n - 1);
      } else {
        SortedListIsUnique(parts, etags, n - 1);
      }
    }
  }

  lemma InsertedAt(parts: seq<Part>, i: nat, part: Part, etags: Parts)
    requires IsSorted(parts, etags) && i <= |parts|
    requires part.number in etags && part.content == etags[part.number]
    requires forall j :: 0 <= j < i ==> parts[j].number < part.number
    requires forall j :: i <= j < |parts| ==> part.number < parts[j].number
    ensures IsSorted(parts[..i] + [part] + parts[i..], etags)
  {
  }

  lemma InsertedNumbers(parts: seq<Part>, i: nat, part: Part, n: int)
    requires i <= |parts|
    ensures var more := parts[..i] + [part] + parts[i..];
      && (HasNumber(parts, n) || n == part.number ==> HasNumber(more, n))
      && (HasNumber(more, n) ==> HasNumber(parts, n) || n == part.number)
  {
    var more := parts[..i] + [part] + parts[i..];
    assert more[i].number == part.number;
    if HasNumber(parts, n) {
      var j :| 0 <= j < |parts| && parts[j].number == n;
      assert more[if j < i then j else j + 1].number == n;
    }
    if HasNumber(more, n) {
      var j :| 0 <= j < |more| && more[j].number == n;
      assert j == i || more[j] == parts[if j < i then j else j - 1];
    }
  }

  /** Puts a part into its place among sorted ones. */
  method InsertPart(parts: seq<Part>, part: Part, ghost etags: Parts) returns (more: seq<Part>)
    requires IsSorted(parts, etags) && !HasNumber(parts, part.number)
    requires part.number in etags && part.content == etags[part.number]
    ensures IsSorted(more, etags)
    ensures forall n :: HasNumber(more, n) <==> HasNumber(parts, n) || n == part.number
  {
    var i := |parts|;
    while i > 0 && parts[i - 1].number > part.number
      invariant 0 <= i <= |parts|
      invariant forall j :: i <= j < |parts| ==> parts[j].number > part.number
    {
      i := i - 1;
    }
    assert i > 0 ==> parts[i - 1].number != part.number;
    more := parts[..i] + [part] + parts[i..];
    InsertedAt(parts, i, part, etags);
    forall n ensures HasNumber(more, n) <==> HasNumber(parts, n) || n == part.number {
      InsertedNumbers(parts, i, part, n);
    }
  }

  lemma HasMember(numbers: set<int>)
    ensures numbers == {} || exists n: int :: n in numbers
  {
    if !exists n: int :: n in numbers {
      assert numbers == {};
    }
  }

  method AnyOf(numbers: set<int>) returns (n: int)
    requires numbers != {}
    ensures n in numbers
  {
    HasMember(numbers);
    n :| n in numbers;
  }

  /** The part list of completeMultipartUpload: the map's entries in ascending part number. */
  method SortedParts(etags: Parts) returns (parts: seq<Part>)
    requires ValidNumbers(etags)
    ensures parts == PartList(etags)
  {
    parts := [];
    var rest: set<int> := etags.Keys;
    while rest != {}
      invariant rest <= etags.Keys && IsSorted(parts, etags)
      invariant forall n :: HasNumber(parts, n) <==> n in etags && n !in rest
    {
      var n := AnyOf(rest);
      parts := InsertPart(parts, Part(n, etags[n]), etags);
      rest := rest - {n};
    }
    forall i | 0 <= i < |parts| ensures 1 <= parts[i].number <= MAX_PARTS_PER_UPLOAD {
      assert HasNumber(parts, parts[i].number);
    }
    SortedListIsUnique(parts, etags, MAX_PARTS_PER_UPLOAD);
  }

  class Uploader {
    // the remote store
    var dest: Option<Bytes>
    var uploads: map<UploadId, Parts>
    var nextId: UploadId
    // the task's row, and all its values so far
    var uploadId: Option<UploadId>
    ghost var ids: seq<UploadId>
    // this run's UploadId, and its partETags, once known
    var own: Option<UploadId>
    var etags: Option<Parts>
    ghost var start: Run
    ghost var trace: seq<Event>
    ghost var run: Run

    constructor (saved: Saved)
      ensures SavedView() == saved && IsConsistent()
    {
      dest, uploads, nextId := saved.remote.dest, saved.remote.uploads, saved.remote.nextId;
      uploadId, ids := Current(saved), saved.ids;
      own, etags := None, None;
      start, trace, run := Open(saved, None), [], Open(saved, None);
    }

    ghost function SavedView(): Saved
      reads this
    {
      Saved(Remote(dest, uploads, nextId), ids)
    }

    /** The row holds the last of its values. */
    ghost predicate IsConsistent()
      reads this
    {
      uploadId == Current(SavedView())
    }

    ghost predicate Valid(file: Bytes, override: int)
      requires Uploadable(|file|, override)
      reads this
    {
      && Leads(file, override, start, trace, run) && IsConsistent()
      && run == Run(SavedView(), own, etags, run.finished)
    }

    /** Takes note of an event; the code that follows makes its effect real. */
    ghost method Note(file: Bytes, override: int, e: Event)
      requires Uploadable(|file|, override) && Valid(file, override) && CanStep(file, override, run, e)
      modifies this`trace, this`run
      ensures Leads(file, override, start, trace, run) && run == Step(file, override, old(run), e)
    {
      assert CanPlay(file, override, start, trace);
      LeadsOn(file, override, start, trace, run, e);
      trace, run := trace + [e], Step(file, override, run, e);
    }

    /** One attempt of CreateMultipartUpload, with the hook that persists the id it answers. */
    method CreateOnce(file: Bytes, override: int, reply: Reply, persisted: bool) returns (answered: bool)
      requires Uploadable(|file|, override) && Valid(file, override) && NumbersInv(run)
      requires IsMultipart(file) && !run.finished && own.None? && etags.None?
      modifies this
      ensures Valid(file, override) && !run.finished && start == old(start) && NumbersInv(run)
      ensures answered == reply.Seen?
      ensures if answered && persisted then KnowsStored(run) && etags == Some(map[]) else own.None? && etags.None?
    {
      answered := reply.Seen?;
      if answered && persisted {
        Note(file, override, Create);
        uploadId, own, etags, ids := Some(nextId), Some(nextId), Some(map[]), ids + [nextId];
        uploads, nextId := uploads[nextId := map[]], nextId + 1;
      } else if !reply.Lost? {
        Note(file, override, CreateUnseen);
        uploads, nextId := uploads[nextId := map[]], nextId + 1;
      }
    }

    /** listCompletedParts: page after page until one is not truncated. */
    method ListCompletedParts(file: Bytes, override: int, cuts: seq<nat>)
      requires Uploadable(|file|, override) && Valid(file, override)
      requires IsMultipart(file) && !run.finished && HasUpload(run) && etags.None?
      requires NumbersInv(run)
      modifies this
      ensures Valid(file, override) && !run.finished && start == old(start) && NumbersInv(run)
      ensures KnowsStored(run) && etags == Some(Stored(run)) && SavedView() == old(SavedView()) && own == old(own)
    {
      var stored := uploads[own.value];
      var completed: Parts := map[];
      var marker := 0;
      for p := 0 to |cuts|
        invariant completed == map n | n in stored && n <= marker :: stored[n]
      {
        var next := if cuts[p] > marker then cuts[p] else marker;
        var page := map n | n in stored && marker < n <= next :: stored[n];
        completed := completed + page;
        marker := next;
      }
      completed := completed + map n | n in stored && marker < n :: stored[n];
      assert completed == stored;
      Note(file, override, List);
      etags := Some(completed);
    }

    method SendOnce(file: Bytes, override: int, n: int, reply: Reply) returns (sent: bool)
      requires Uploadable(|file|, override) && Valid(file, override)
      requires reply.Lost? || CanStep(file, override, run, Send(n, reply.Seen?))
      modifies this
      ensures Valid(file, override) && start == old(start)
      ensures sent == reply.Seen?
      ensures run == if reply.Lost? then old(run) else Step(file, override, old(run), Send(n, sent))
    {
      sent := reply.Seen?;
      if !reply.Lost? {
        var content := SliceBytes(file, RunPartSize(|file|, override), n);
        Note(file, override, Send(n, sent));
        uploads := uploads[own.value := uploads[own.value][n := content]];
        if sent {
          etags := Some(etags.value[n := content]);
        }
      }
    }

    method CompleteOnce(file: Bytes, override: int, reply: Reply) returns (completed: bool)
      requires Uploadable(|file|, override) && Valid(file, override)
      requires etags.Some? && ValidNumbers(etags.value)
      requires reply.Lost? || CanStep(file, override, run, Complete(reply.Seen?))
      modifies this
      ensures Valid(file, override) && start == old(start)
      ensures completed == reply.Seen?
      ensures reply.Lost? ==> run == old(run)
      ensures !reply.Lost? ==> run.finished == completed && dest == Some(Concat(PartList(old(etags).value)))
    {
      completed := reply.Seen?;
      if !reply.Lost? {
        var content := JoinedParts();
        NoteCompletion(file, override, completed, content);
        TakeCompletion(file, override, content);
      }
    }

    /** What the server makes of the sorted list. */
    method JoinedParts() returns (content: Bytes)
      requires etags.Some? && ValidNumbers(etags.value)
      ensures content == Concat(PartList(etags.value))
    {
      var parts := SortedParts(etags.value);
      content := Concat(parts);
    }

    /** The completion takes effect. */
    method TakeCompletion(file: Bytes, override: int, content: Bytes)
      requires Uploadable(|file|, override) && Leads(file, override, start, trace, run) && IsConsistent() && own.Some?
      requires run == Run(Saved(Remote(Some(content), uploads - {own.value}, nextId), ids), own, etags, run.finished)
      modifies this`dest, this`uploads
      ensures Valid(file, override) && dest == Some(content)
    {
      dest := Some(content);
      uploads := uploads - {own.value};
    }

    ghost method NoteCompletion(file: Bytes, override: int, completed: bool, content: Bytes)
      requires Uploadable(|file|, override) && Valid(file, override)
      requires CanStep(file, override, run, Complete(completed))
      requires etags.Some? && content == Concat(PartList(etags.value))
      modifies this`trace, this`run
      ensures Leads(file, override, start, trace, run) && own.Some?
      ensures var remote := Remote(Some(content), uploads - {own.value}, nextId);
        run == Run(Saved(remote, ids), own, etags, completed)
    {
      Note(file, override, Complete(completed));
    }

    method PutOnce(file: Bytes, override: int, reply: Reply) returns (done: bool)
      requires Uploadable(|file|, override) && Valid(file, override) && !IsMultipart(file) && !run.finished
      modifies this
      ensures Valid(file, override) && start == old(start)
      ensures done == reply.Seen? == run.finished && (done ==> dest == Some(file))
    {
      done := reply.Seen?;
      if !reply.Lost? {
        Note(file, override, Put(done));
        dest := Some(file);
      }
    }

    /** ensureMultipartUploadID: the id the task was started with is used as it is. */
    method EnsureUploadId(file: Bytes, override: int, net: Net) returns (ok: bool)
      requires Uploadable(|file|, override) && Valid(file, override) && NumbersInv(run)
      requires IsMultipart(file) && !run.finished && etags.None?
      modifies this
      ensures Valid(file, override) && !run.finished && start == old(start) && NumbersInv(run)
      ensures ok == (old(own).Some? || (GetsAnswer(net.create) && net.persisted))
      ensures old(own).Some? ==> run == old(run) && etags.None?
      ensures ok && old(own).None? ==> KnowsStored(run) && etags == Some(map[])
    {
      ok := own.Some?;
      var a, answered := 0, false;
      while !ok && !answered && a < |net.create|
        invariant Valid(file, override) && !run.finished && start == old(start) && NumbersInv(run)
        invariant 0 <= a <= |net.create|
        invariant old(own).Some? ==> ok && run == old(run) && etags.None?
        invariant old(own).None? ==> ok == (answered && net.persisted)
        invariant old(own).None? ==> answered == (exists i :: 0 <= i < a && net.create[i].Seen?)
        invariant ok && old(own).None? ==> KnowsStored(run) && etags == Some(map[])
        invariant !ok ==> own.None? && etags.None?
        decreases !ok && !answered, |net.create| - a
      {
        answered := CreateOnce(file, override, net.create[a], net.persisted);
        ok := answered && net.persisted;
        a := a + 1;
      }
    }

    /** uploadPart: attempts until one is answered. */
    method SendPart(file: Bytes, override: int, n: int, replies: seq<Reply>) returns (sent: bool)
      requires Uploadable(|file|, override) && Valid(file, override) && NumbersInv(run)
      requires !run.finished && CanStep(file, override, run, Send(n, true)) && KnowsStored(run)
      modifies this
      ensures Valid(file, override) && !run.finished && start == old(start) && NumbersInv(run)
      ensures KnowsStored(run) && sent == GetsAnswer(replies)
      ensures run.etags ==
                if sent then Some(old(run).etags.value[n := SliceBytes(file, RunPartSize(|file|, override), n)])
                else old(run).etags
    {
      sent := false;
      var a := 0;
      while !sent && a < |replies|
        invariant Valid(file, override) && !run.finished && start == old(start) && NumbersInv(run)
        invariant KnowsStored(run) && 0 <= a <= |replies|
        invariant sent == exists i :: 0 <= i < a && replies[i].Seen?
        invariant run.etags ==
          if sent then Some(old(run).etags.value[n := SliceBytes(file, RunPartSize(|file|, override), n)])
          else old(run).etags
        decreases !sent, |replies| - a
      {
        sent := SendOnce(file, override, n, replies[a]);
        a := a + 1;
      }
    }

    /** Part n, unless it is listed. */
    method SendIfMissing(file: Bytes, override: int, n: int, send: map<int, seq<Reply>>) returns (ok: bool)
      requires Uploadable(|file|, override) && Valid(file, override) && NumbersInv(run)
      requires IsMultipart(file) && !run.finished && KnowsStored(run)
      requires 1 <= n <= PartCount(|file|, RunPartSize(|file|, override))
      modifies this
      ensures Valid(file, override) && !run.finished && start == old(start) && NumbersInv(run)
      ensures KnowsStored(run) && ok == (n in old(run).etags.value || SendsPart(send, n))
      ensures ok && n in old(run).etags.value ==> run.etags == old(run).etags
      ensures ok && n !in old(run).etags.value ==>
        run.etags == Some(old(run).etags.value[n := SliceBytes(file, RunPartSize(|file|, override), n)])
    {
      ok := n in etags.value;
      if !ok && n <= MAX_PARTS_PER_UPLOAD {
        ok := SendPart(file, override, n, if n in send then send[n] else []);
      }
    }

    /** Every part not listed, in order, up to the first that fails. */
    method SendMissing(file: Bytes, override: int, send: map<int, seq<Reply>>) returns (ok: bool)
      requires Uploadable(|file|, override) && Valid(file, override) && NumbersInv(run)
      requires IsMultipart(file) && !run.finished && KnowsStored(run)
      modifies this
      ensures Valid(file, override) && !run.finished && start == old(start) && NumbersInv(run)
      ensures KnowsStored(run)
      ensures var size, listed := RunPartSize(|file|, override), old(run).etags.value;
        && ok == SendsMissing(PartCount(|file|, size), listed, send)
        && (ok ==> run.etags == Some(WithSlices(file, size, listed, PartCount(|file|, size))))
    {
      ok := true;
      ghost var size, listed := RunPartSize(|file|, override), run.etags.value;
      var n, count := 1, PartCount(|file|, RunPartSize(|file|, override));
      CeilDivIsCeiling(|file|, size);
      while ok && n <= count
        invariant Valid(file, override) && !run.finished && start == old(start) && NumbersInv(run)
        invariant KnowsStored(run) && 1 <= n <= count + 1
        invariant ok == SendsMissing(n - 1, listed, send)
        invariant ok ==> run.etags == Some(WithSlices(file, size, listed, n - 1))
        decreases ok, count - n
      {
        WithSlicesAt(file, size, listed, n - 1);
        OneMoreSent(n, listed, send);
        ok := SendIfMissing(file, override, n, send);
        n := n + 1;
      }
    }

    /** completeMultipartUpload: attempts until one is answered; the server refuses a list it cannot join. */
    method CompleteUpload(file: Bytes, override: int, replies: seq<Reply>) returns (completed: bool)
      requires Uploadable(|file|, override) && Valid(file, override) && NumbersInv(run)
      requires IsMultipart(file) && !run.finished && KnowsStored(run) && etags.Some?
      requires HasAll(etags.value, PartCount(|file|, RunPartSize(|file|, override)))
      modifies this
      ensures Valid(file, override) && start == old(start) && completed == run.finished
      ensures completed == (IsJoinable(PartList(old(etags).value)) && FirstEffectIsSeen(replies))
      ensures completed ==> dest == Some(Concat(PartList(old(etags).value)))
    {
      completed := false;
      AcceptsIffJoinable(run);
      ghost var joinable := IsJoinable(PartList(etags.value));
      var a, stored := 0, true;
      while !completed && stored && a < |replies|
        invariant Valid(file, override) && start == old(start) && completed == run.finished && 0 <= a <= |replies|
        invariant stored ==> run == old(run) && etags == old(etags) && !completed
        invariant completed ==> dest == Some(Concat(PartList(old(etags).value)))
        invariant if stored then joinable && FirstEffectIsSeen(replies) <==> joinable && FirstEffectIsSeen(replies[a..])
                  else completed == (joinable && FirstEffectIsSeen(replies))
        decreases !completed && stored, |replies| - a
      {
        var accepted := Accepts(uploads[own.value], PartList(etags.value));
        var reply := if accepted then replies[a] else Lost;
        completed := CompleteOnce(file, override, reply);
        stored := reply.Lost?;
        a := a + 1;
      }
    }

    method UploadSingle(file: Bytes, override: int, replies: seq<Reply>) returns (ok: bool)
      requires Uploadable(|file|, override) && Valid(file, override) && !IsMultipart(file) && !run.finished
      modifies this
      ensures Valid(file, override) && start == old(start) && ok == run.finished
      ensures ok == GetsAnswer(replies) && (ok ==> dest == Some(file))
    {
      ok := false;
      var a := 0;
      while !ok && a < |replies|
        invariant Valid(file, override) && start == old(start) && ok == run.finished && 0 <= a <= |replies|
        invariant ok == (exists i :: 0 <= i < a && replies[i].Seen?) && (ok ==> dest == Some(file))
        decreases !ok, |replies| - a
      {
        ok := PutOnce(file, override, replies[a]);
        a := a + 1;
      }
    }

    /** Listing the parts fails when the server does not know the upload any more. */
    method Prepare(file: Bytes, override: int, net: Net) returns (ok: bool)
      requires Uploadable(|file|, override) && Valid(file, override) && NumbersInv(run)
      requires IsMultipart(file) && !run.finished && etags.None?
      modifies this
      ensures Valid(file, override) && !run.finished && start == old(start) && NumbersInv(run)
      ensures ok == GetsUpload(old(SavedView()), old(own), net)
      ensures ok ==> KnowsStored(run) && etags == Some(Listed(old(SavedView()), old(own)))
    {
      ok := EnsureUploadId(file, override, net);
      if ok && etags.None? {
        ok := own.value in uploads;
        if ok {
          ListCompletedParts(file, override, net.cuts);
        }
      }
    }

    method UploadMultipart(file: Bytes, override: int, net: Net) returns (ok: bool)
      requires Uploadable(|file|, override) && Valid(file, override) && NumbersInv(run)
      requires IsMultipart(file) && !run.finished && etags.None?
      modifies this
      ensures Valid(file, override) && start == old(start) && ok == run.finished
      ensures ok == Finishes(file, override, old(SavedView()), old(own), net)
      ensures ok ==> dest == Some(BytesPut(file, override, old(SavedView()), old(own)))
    {
      ok := Prepare(file, override, net);
      if ok {
        ghost var listed := run.etags.value;
        ok := SendMissing(file, override, net.send);
        SentAll(file, RunPartSize(|file|, override), listed);
        if ok {
          ok := CompleteUpload(file, override, net.complete);
        }
      }
    }

    /** Upload: one call, started with the UploadId in its copy of the task, is one run, and it returns nil
        exactly when that run finished: when each request it makes gets its answer. */
    method Upload(file: Bytes, override: int, existing: Option<UploadId>, net: Net)
      returns (ok: bool, ghost script: Script)
      requires Uploadable(|file|, override) && IsConsistent() && StoredNumbers(SavedView())
      requires MayStart(SavedView(), existing, true)
      modifies this
      ensures IsConsistent() && script.own == existing && IsScript(file, override, old(SavedView()), script)
      ensures Play(file, override, Open(old(SavedView()), existing), script.events) == Run(SavedView(), own, etags, ok)
      ensures ok == Finishes(file, override, old(SavedView()), existing, net)
      ensures ok ==> dest == Some(BytesPut(file, override, old(SavedView()), existing))
    {
      own, etags := existing, None;
      MayStartMeansKnown(SavedView(), existing);
      start, trace, run := Open(SavedView(), own), [], Open(SavedView(), own);
      if IsMultipart(file) {
        ok := UploadMultipart(file, override, net);
      } else {
        ok := UploadSingle(file, override, net.put);
      }
      script := Script(existing, trace);
    }
  }
}
