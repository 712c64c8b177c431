/**
When an upload returns nil, by how its requests end, and what it has put then. Attempts of a request go on
until one is answered, or none is left.
*/
module UploadAnswers {
  import opened PartSizes
  import opened Slices
  import opened Objects
  import opened MultipartUpload

  /** `cuts` are the markers at which the server splits the part listing into pages. */
  datatype Net = Net(
    put: seq<Reply>, create: seq<Reply>, persisted: bool, cuts: seq<nat>, send: map<int, seq<Reply>>,
    complete: seq<Reply>)

  predicate GetsAnswer(replies: seq<Reply>) {
    Seen in replies
  }

  /** A completion can take effect once: later attempts find no upload. */
  predicate FirstEffectIsSeen(replies: seq<Reply>) {
    replies != [] && (replies[0].Seen? || (replies[0].Lost? && FirstEffectIsSeen(replies[1..])))
  }

  /** A call started with an UploadId needs the server to know it; one without needs a new one. */
  predicate GetsUpload(saved: Saved, existing: Option<UploadId>, net: Net) {
    match existing
    case None => GetsAnswer(net.create) && net.persisted
    case Some(id) => id in saved.remote.uploads
  }

  /** What is stored before the call sends anything. */
  function Listed(saved: Saved, existing: Option<UploadId>): Parts {
    match existing
    case None => map[]
    case Some(id) => if id in saved.remote.uploads then saved.remote.uploads[id] else map[]
  }

  predicate SendsPart(send: map<int, seq<Reply>>, n: int) {
    n <= MAX_PARTS_PER_UPLOAD && n in send && GetsAnswer(send[n])
  }

  predicate SendsMissing(count: nat, listed: Parts, send: map<int, seq<Reply>>) {
    forall n :: 1 <= n <= count && n !in listed ==> SendsPart(send, n)
  }

  /** The listed parts, and the file's own slices for the others up to m. */
  function WithSlices(file: Bytes, size: int, listed: Parts, m: nat): Parts
    requires Sliceable(|file|, size) && m <= PartCount(|file|, size)
  {
    if m == 0 then listed
    else
      var before := WithSlices(file, size, listed, m - 1);
      if m in listed then before else before[m := SliceBytes(file, size, m)]
  }

  lemma {:induction false} WithSlicesAt(file: Bytes, size: int, listed: Parts, m: nat)
    requires Sliceable(|file|, size) && m <= PartCount(|file|, size)
    ensures var parts := WithSlices(file, size, listed, m);
      forall n :: (n in parts <==> n in listed || 1 <= n <= m)
                  && (n in listed ==> parts[n] == listed[n])
                  && (n in parts && n !in listed ==>
                        1 <= n <= PartCount(|file|, size) && parts[n] == SliceBytes(file, size, n))
  {
    if m > 0 {
      WithSlicesAt(file, size, listed, m - 1);
    }
  }

  lemma SentAll(file: Bytes, size: int, listed: Parts)
    requires Sliceable(|file|, size) && |file| > 0
    ensures PartCount(|file|, size) > 0
    ensures HasAll(WithSlices(file, size, listed, PartCount(|file|, size)), PartCount(|file|, size))
  {
    CeilDivIsCeiling(|file|, size);
    WithSlicesAt(file, size, listed, PartCount(|file|, size));
  }

  lemma OneMoreSent(n: nat, listed: Parts, send: map<int, seq<Reply>>)
    requires n > 0
    ensures SendsMissing(n, listed, send) <==> SendsMissing(n - 1, listed, send) && (n in listed || SendsPart(send, n))
  {
  }

  /** The parts a call that sends them all completes the upload with. */
  function CompletedParts(file: Bytes, override: int, saved: Saved, existing: Option<UploadId>): Parts
    requires Uploadable(|file|, override)
  {
    var size := RunPartSize(|file|, override);
    WithSlices(file, size, Listed(saved, existing), PartCount(|file|, size))
  }

  /** Only the last part may be small. */
  predicate IsJoinable(parts: seq<Part>) {
    parts != [] && forall i :: 0 <= i < |parts| - 1 ==> |parts[i].content| >= MIN_PART_SIZE
  }

  /** The call returns nil. */
  predicate Finishes(file: Bytes, override: int, saved: Saved, existing: Option<UploadId>, net: Net)
    requires Uploadable(|file|, override)
  {
    if !IsMultipart(file) then GetsAnswer(net.put)
    else
      && GetsUpload(saved, existing, net)
      && SendsMissing(PartCount(|file|, RunPartSize(|file|, override)), Listed(saved, existing), net.send)
      && IsJoinable(PartList(CompletedParts(file, override, saved, existing)))
      && FirstEffectIsSeen(net.complete)
  }

  /** And has put this. */
  function BytesPut(file: Bytes, override: int, saved: Saved, existing: Option<UploadId>): Bytes
    requires Uploadable(|file|, override)
  {
    if IsMultipart(file) then Concat(PartList(CompletedParts(file, override, saved, existing))) else file
  }

  // ----- what the server accepts -----

  /** The parts a run knows of are stored as it knows them. */
  predicate KnowsStored(r: Run) {
    && HasUpload(r) && r.etags.Some?
    && forall n :: n in r.etags.value ==> n in Stored(r) && Stored(r)[n] == r.etags.value[n]
  }

  lemma {:induction false} ListAscends(etags: Parts, n: nat, i: int)
    requires 0 <= i < |PartsUpTo(etags, n)|
    ensures var parts := PartsUpTo(etags, n);
      && parts[i].number in etags && parts[i].content == etags[parts[i].number] && parts[i].number <= n
      && (i > 0 ==> parts[i - 1].number < parts[i].number)
  {
    var front := PartsUpTo(etags, n - 1);
    if i < |front| {
      ListAscends(etags, n - 1, i);
    } else if i > 0 {
      ListAscends(etags, n - 1, i - 1);
    }
  }

  lemma AcceptsIffJoinable(r: Run)
    requires KnowsStored(r)
    ensures Accepts(Stored(r), PartList(r.etags.value)) <==> IsJoinable(PartList(r.etags.value))
  {
    var parts := PartList(r.etags.value);
    forall i | 0 <= i < |parts|
      ensures parts[i].number in Stored(r) && Stored(r)[parts[i].number] == parts[i].content
      ensures i > 0 ==> parts[i - 1].number < parts[i].number
    {
      ListAscends(r.etags.value, MAX_PARTS_PER_UPLOAD, i);
    }
  }

  // ----- when everything is answered -----

  /** The first attempt of every request a call may make is answered. */
  predicate AllAnswered(file: Bytes, override: int, net: Net)
    requires Uploadable(|file|, override)
  {
    && net.put != [] && net.put[0].Seen?
    && net.create != [] && net.create[0].Seen? && net.persisted
    && net.complete != [] && net.complete[0].Seen?
    && forall n :: 1 <= n <= PartCount(|file|, RunPartSize(|file|, override)) ==>
         n in net.send && net.send[n] != [] && net.send[n][0].Seen?
  }

  /** Then a call with legal part sizes, whose upload is new or still known with its own slices, returns nil
      and has put the file. */
  lemma AnsweredFinishes(file: Bytes, override: int, saved: Saved, existing: Option<UploadId>, net: Net)
    requires Uploadable(|file|, override) && RunPartSize(|file|, override) >= MIN_PART_SIZE
    requires AllAnswered(file, override, net)
    requires IsMultipart(file) ==> FitsInUpload(|file|, override) && CanGoOn(file, override, saved, existing)
    ensures Finishes(file, override, saved, existing, net) && BytesPut(file, override, saved, existing) == file
  {
    if IsMultipart(file) {
      var size, parts := RunPartSize(|file|, override), CompletedParts(file, override, saved, existing);
      CeilDivIsCeiling(|file|, size);
      WithSlicesAt(file, size, Listed(saved, existing), PartCount(|file|, size));
      SlicesAreAccepted(file, size, parts);
    }
  }
}
