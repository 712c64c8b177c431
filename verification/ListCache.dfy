/**
ListObjects and its cache. A request names a folder, a page token and a sort order; requests are taken
one at a time. `server` gives the pages of each folder's listing.
*/
module ListCache {
  import opened Objects
  import opened Listing

  datatype CacheKey = CacheKey(profileId: int, bucket: string, prefix: string)

  /** Token 0 is the empty token; token i asks for page i. */
  datatype CacheEntry = CacheEntry(entries: seq<ObjectEntry>, nextToken: nat, isTruncated: bool)

  type Cache = map<CacheKey, CacheEntry>

  type Server = CacheKey -> seq<seq<ObjectEntry>>

  datatype Request = Request(key: CacheKey, token: nat, refresh: bool, sortBy: string, desc: bool)

  datatype Response = Response(entries: seq<ObjectEntry>, nextToken: nat, isTruncated: bool)

  // ----- one request -----

  /** What the server says after the first k pages. */
  function TokenAfter(pages: seq<seq<ObjectEntry>>, k: nat): nat {
    if k < |pages| then k else 0
  }

  function Stored(cache: Cache, key: CacheKey): seq<ObjectEntry> {
    if key in cache then cache[key].entries else []
  }

  /** A first page replaces what was cached for the folder, a later page is appended to it. */
  function WithPage(cache: Cache, req: Request, pages: seq<seq<ObjectEntry>>): Cache
    requires req.token < |pages|
  {
    var page, next := pages[req.token], TokenAfter(pages, req.token + 1);
    cache[req.key := CacheEntry((if req.token != 0 then Stored(cache, req.key) else []) + page, next, next != 0)]
  }

  function Answer(entry: CacheEntry, req: Request): Response {
    Response(SortEntries(entry.entries, req.sortBy, req.desc), entry.nextToken, entry.isTruncated)
  }

  function Handle(cache: Cache, server: Server, req: Request, fails: bool): (Cache, Option<Response>) {
    var kept := if req.refresh then cache - {req.key} else cache;
    if req.token == 0 && !req.refresh && req.key in kept then (kept, Some(Answer(kept[req.key], req)))
    else if fails || req.token >= |server(req.key)| then (kept, None)
    else
      var after := WithPage(kept, req, server(req.key));
      (after, Some(Answer(after[req.key], req)))
  }

  // ----- what the cache holds -----

  function Flat(pages: seq<seq<ObjectEntry>>): seq<ObjectEntry> {
    if pages == [] then [] else Flat(pages[..|pages| - 1]) + pages[|pages| - 1]
  }

  /** The entry holds exactly the first k pages, and knows what comes next. */
  predicate IsPrefix(entry: CacheEntry, pages: seq<seq<ObjectEntry>>, k: nat) {
    && 1 <= k <= |pages|
    && entry.entries == Flat(pages[..k])
    && entry.nextToken == TokenAfter(pages, k)
    && entry.isTruncated == (k < |pages|)
  }

  ghost predicate HoldsPages(entry: CacheEntry, pages: seq<seq<ObjectEntry>>) {
    exists k :: IsPrefix(entry, pages, k)
  }

  ghost predicate Inv(cache: Cache, server: Server) {
    forall key :: key in cache ==> HoldsPages(cache[key], server(key))
  }

  /** A listing has no key twice, and only an empty folder has an empty page. */
  ghost predicate IsListing(pages: seq<seq<ObjectEntry>>) {
    && pages != [] && DistinctKeys(Flat(pages))
    && (|pages| > 1 ==> forall i :: 0 <= i < |pages| ==> pages[i] != [])
  }

  /** The request asks for the first page, or follows the token last returned for its folder. */
  predicate Follows(cache: Cache, req: Request) {
    req.token == 0 || (!req.refresh && req.key in cache && req.token == cache[req.key].nextToken)
  }

  lemma {:induction false} FlatLengths(pages: seq<seq<ObjectEntry>>, j: nat, k: nat)
    requires IsListing(pages) && j < k <= |pages| && |pages| > 1
    ensures |Flat(pages[..j])| < |Flat(pages[..k])|
  {
    assert pages[..k][..k - 1] == pages[..k - 1];
    if j < k - 1 {
      FlatLengths(pages, j, k - 1);
    }
  }

  lemma NextPage(pages: seq<seq<ObjectEntry>>, k: nat)
    requires k < |pages|
    ensures Flat(pages[..k + 1]) == Flat(pages[..k]) + pages[k]
  {
    assert pages[..k + 1][..k] == pages[..k];
  }

  lemma FetchKeepsInv(cache: Cache, server: Server, req: Request)
    requires Inv(cache, server) && Follows(cache, req) && req.token < |server(req.key)|
    ensures Inv(WithPage(cache, req, server(req.key)), server)
  {
    var pages := server(req.key);
    var entry := WithPage(cache, req, pages)[req.key];
    NextPage(pages, req.token);
    if req.token != 0 {
      var k :| IsPrefix(cache[req.key], pages, k);
      assert k == req.token;
    }
    assert IsPrefix(entry, pages, req.token + 1);
  }

  lemma RequestKeepsInv(cache: Cache, server: Server, req: Request, fails: bool)
    requires Inv(cache, server) && Follows(cache, req)
    ensures Inv(Handle(cache, server, req, fails).0, server)
  {
    var kept := if req.refresh then cache - {req.key} else cache;
    if req.token < |server(req.key)| {
      FetchKeepsInv(kept, server, req);
    }
  }

  /** After a request that was answered from the server, the folder's entry is right exactly when the
      request asked for the first page or followed the folder's token. */
  lemma EntryIsRightIffFollowed(cache: Cache, server: Server, req: Request)
    requires Inv(cache, server) && IsListing(server(req.key)) && req.token < |server(req.key)|
    ensures var cache' := Handle(cache, server, req, false).0;
      req.key in cache' && (HoldsPages(cache'[req.key], server(req.key)) <==> Follows(cache, req))
  {
    var pages := server(req.key);
    var cache' := Handle(cache, server, req, false).0;
    if Follows(cache, req) {
      RequestKeepsInv(cache, server, req, false);
    } else {
      WrongTokenSpoils(cache, server, req);
    }
  }

  lemma WrongTokenSpoils(cache: Cache, server: Server, req: Request)
    requires Inv(cache, server) && IsListing(server(req.key)) && req.token < |server(req.key)|
    requires !Follows(cache, req)
    ensures !HoldsPages(Handle(cache, server, req, false).0[req.key], server(req.key))
  {
    var pages := server(req.key);
    var kept := if req.refresh then cache - {req.key} else cache;
    var entry := WithPage(kept, req, pages)[req.key];
    NextPage(pages, req.token);
    if HoldsPages(entry, pages) {
      var k :| IsPrefix(entry, pages, k);
      assert k == req.token + 1;
      assert |Stored(kept, req.key)| == |Flat(pages[..req.token])|;
      StoredLength(kept, server, req.key, req.token);
    }
  }

  /** The stored length tells how many pages are stored. */
  lemma StoredLength(cache: Cache, server: Server, key: CacheKey, n: nat)
    requires Inv(cache, server) && IsListing(server(key)) && 0 < n < |server(key)|
    requires |Stored(cache, key)| == |Flat(server(key)[..n])|
    ensures key in cache && cache[key].nextToken == n
  {
    var pages := server(key);
    if key in cache {
      var k: nat :| IsPrefix(cache[key], pages, k);
      if k < n {
        FlatLengths(pages, k, n);
      } else if n < k {
        FlatLengths(pages, n, k);
      }
    } else {
      FlatLengths(pages, 0, n);
    }
  }

  // ----- every history -----

  datatype Call = Call(req: Request, fails: bool)

  function After(server: Server, calls: seq<Call>): Cache {
    if calls == [] then map[]
    else
      var last := calls[|calls| - 1];
      Handle(After(server, calls[..|calls| - 1]), server, last.req, last.fails).0
  }

  predicate AllFollow(server: Server, calls: seq<Call>) {
    calls == [] ||
    var front := calls[..|calls| - 1];
    AllFollow(server, front) && Follows(After(server, front), calls[|calls| - 1].req)
  }

  lemma {:induction false} HistoryKeepsInv(server: Server, calls: seq<Call>)
    requires AllFollow(server, calls)
    ensures Inv(After(server, calls), server)
  {
    if calls != [] {
      var front, last := calls[..|calls| - 1], calls[|calls| - 1];
      HistoryKeepsInv(server, front);
      RequestKeepsInv(After(server, front), server, last.req, last.fails);
    }
  }

  /** The answer lists the first k pages, each entry once, in the requested order. */
  ghost predicate ListsPages(response: Response, pages: seq<seq<ObjectEntry>>, k: nat, req: Request) {
    && 1 <= k <= |pages|
    && multiset(response.entries) == multiset(Flat(pages[..k])) && DistinctKeys(response.entries)
    && IsSorted(response.entries, req.sortBy, req.desc)
    && response.nextToken == TokenAfter(pages, k) && response.isTruncated == (k < |pages|)
  }

  lemma {:induction false} FlatPrefix(pages: seq<seq<ObjectEntry>>, k: nat)
    requires k <= |pages| && DistinctKeys(Flat(pages))
    ensures DistinctKeys(Flat(pages[..k]))
  {
    if k < |pages| {
      var front := pages[..|pages| - 1];
      assert forall i :: 0 <= i < |Flat(front)| ==> Flat(front)[i] == Flat(pages)[i];
      FlatPrefix(front, k);
      assert front[..k] == pages[..k];
    } else {
      assert pages[..k] == pages;
    }
  }

  /** In every history that follows the returned tokens and refreshes first pages only, every answer lists
      exactly the folder's pages fetched so far, sorted; one that is not truncated lists the folder. */
  lemma AnswersAreRight(server: Server, calls: seq<Call>, last: Call)
    requires AllFollow(server, calls) && Follows(After(server, calls), last.req) && IsListing(server(last.req.key))
    ensures var (cache, response) := Handle(After(server, calls), server, last.req, last.fails);
      var pages := server(last.req.key);
      response.Some? ==>
        && (exists k :: ListsPages(response.value, pages, k, last.req))
        && (!response.value.isTruncated ==> multiset(response.value.entries) == multiset(Flat(pages)))
  {
    var (cache, response) := Handle(After(server, calls), server, last.req, last.fails);
    var pages := server(last.req.key);
    HistoryKeepsInv(server, calls);
    RequestKeepsInv(After(server, calls), server, last.req, last.fails);
    if response.Some? {
      assert HoldsPages(cache[last.req.key], pages);
      var k: nat :| IsPrefix(cache[last.req.key], pages, k);
      var entries := cache[last.req.key].entries;
      FlatPrefix(pages, k);
      SortPermutes(entries, last.req.sortBy, last.req.desc);
      SortIsSorted(entries, last.req.sortBy, last.req.desc);
      assert ListsPages(response.value, pages, k, last.req);
      assert k == |pages| ==> pages[..k] == pages;
    }
  }

  /** The sort order asked for never reaches the cache, and no request touches another folder's entry. */
  lemma CacheIgnoresSorting(
    cache: Cache, server: Server, req: Request, sortBy: string, desc: bool, fails: bool, other: CacheKey)
    requires other != req.key
    ensures Handle(cache, server, req.(sortBy := sortBy, desc := desc), fails).0
         == Handle(cache, server, req, fails).0
    ensures var cache' := Handle(cache, server, req, fails).0;
      (other in cache' <==> other in cache) && (other in cache ==> cache'[other] == cache[other])
  {
    var req' := req.(sortBy := sortBy, desc := desc);
    var kept := if req.refresh then cache - {req.key} else cache;
    if req.token < |server(req.key)| {
      assert WithPage(kept, req', server(req.key)) == WithPage(kept, req, server(req.key));
    }
  }

  /** A first page is served from the cache, even when the server cannot be reached, exactly when the folder is
      cached and no refresh is asked for; such an answer changes nothing. */
  lemma AnsweredWithoutServerIff(cache: Cache, server: Server, req: Request)
    ensures Handle(cache, server, req, true).1.Some? <==> req.token == 0 && !req.refresh && req.key in cache
    ensures Handle(cache, server, req, true).1.Some? ==>
      && Handle(cache, server, req, true) == Handle(cache, server, req, false)
      && Handle(cache, server, req, true).0 == cache
    ensures req.token < |server(req.key)| ==> Handle(cache, server, req, false).1.Some?
  {
  }

  /** A refresh starts the folder over with its first page; one that fails leaves the folder uncached. */
  lemma RefreshStartsOver(cache: Cache, server: Server, req: Request)
    requires req.refresh && req.token == 0 && server(req.key) != []
    ensures var cache' := Handle(cache, server, req, false).0;
      req.key in cache' && IsPrefix(cache'[req.key], server(req.key), 1)
    ensures req.key !in Handle(cache, server, req, true).0
  {
    var pages := server(req.key);
    assert pages[..1] == [pages[0]] && Flat([]) == [] && [pages[0]][..0] == [];
    assert Flat(pages[..1]) == [] + pages[0];
  }

  // ----- the service -----

  /** The page as the server sends it: folder prefixes, and objects. */
  datatype RawPage = RawPage(commonPrefixes: seq<string>, contents: seq<ObjectEntry>)

  function FolderEntry(prefix: string): ObjectEntry {
    ObjectEntry(prefix, true, 0, "", 0)
  }

  /** The folder's own marker object is not among its entries. */
  function OwnEntries(contents: seq<ObjectEntry>, prefix: string): seq<ObjectEntry> {
    if contents == [] then []
    else
      var last := contents[|contents| - 1];
      OwnEntries(contents[..|contents| - 1], prefix)
      + (if prefix != "" && last.key == prefix then [] else [last.(isFolder := false)])
  }

  lemma {:induction false} OwnEntriesAreTheRest(contents: seq<ObjectEntry>, prefix: string, e: ObjectEntry)
    ensures e in OwnEntries(contents, prefix) <==>
      (prefix == "" || e.key != prefix) && exists i :: 0 <= i < |contents| && contents[i].(isFolder := false) == e
  {
    if contents != [] {
      OwnEntriesAreTheRest(contents[..|contents| - 1], prefix, e);
    }
  }

  lemma {:induction false} OwnEntriesAreFiles(contents: seq<ObjectEntry>, prefix: string, i: int)
    requires 0 <= i < |OwnEntries(contents, prefix)|
    ensures !OwnEntries(contents, prefix)[i].isFolder
  {
    var front := OwnEntries(contents[..|contents| - 1], prefix);
    if i < |front| {
      OwnEntriesAreFiles(contents[..|contents| - 1], prefix, i);
    }
  }

  /** The folders the server names come first, each as a folder of that name, and then nothing but files. */
  lemma PageIsFoldersThenFiles(page: RawPage, prefix: string, i: int)
    requires 0 <= i < |PageEntries(page, prefix)|
    ensures var e, n := PageEntries(page, prefix)[i], |page.commonPrefixes|;
      (e.isFolder <==> i < n) && (i < n ==> e.key == page.commonPrefixes[i])
  {
    if i >= |page.commonPrefixes| {
      OwnEntriesAreFiles(page.contents, prefix, i - |page.commonPrefixes|);
    }
  }

  function PageEntries(page: RawPage, prefix: string): seq<ObjectEntry> {
    seq(|page.commonPrefixes|, i requires 0 <= i < |page.commonPrefixes| => FolderEntry(page.commonPrefixes[i]))
    + OwnEntries(page.contents, prefix)
  }

  method EntriesFromPage(page: RawPage, prefix: string) returns (entries: seq<ObjectEntry>)
    ensures entries == PageEntries(page, prefix)
  {
    entries := [];
    for i := 0 to |page.commonPrefixes|
      invariant entries == seq(i, k requires 0 <= k < i => FolderEntry(page.commonPrefixes[k]))
    {
      entries := entries + [FolderEntry(page.commonPrefixes[i])];
    }
    ghost var folders := entries;
    for i := 0 to |page.contents|
      invariant entries == folders + OwnEntries(page.contents[..i], prefix)
    {
      assert page.contents[..i + 1][..i] == page.contents[..i];
      var obj := page.contents[i];
      if !(prefix != "" && obj.key == prefix) {
        entries := entries + [obj.(isFolder := false)];
      }
    }
    assert page.contents[..|page.contents|] == page.contents;
  }

  /** The entry moves left past those it precedes. */
  method InsertInto(sorted: seq<ObjectEntry>, e: ObjectEntry, sortBy: string, desc: bool)
    returns (more: seq<ObjectEntry>)
    ensures more == Inserted(sorted, e, sortBy, desc)
  {
    var j := |sorted|;
    assert sorted[..j] == sorted;
    assert Inserted(sorted, e, sortBy, desc) + sorted[j..] == Inserted(sorted, e, sortBy, desc);
    while j > 0 && Precedes(e, sorted[j - 1], sortBy, desc)
      invariant 0 <= j <= |sorted|
      invariant Inserted(sorted, e, sortBy, desc) == Inserted(sorted[..j], e, sortBy, desc) + sorted[j..]
    {
      assert sorted[..j][..j - 1] == sorted[..j - 1];
      assert [sorted[j - 1]] + sorted[j..] == sorted[j - 1..];
      j := j - 1;
    }
    more := sorted[..j] + [e] + sorted[j..];
  }

  /** sortEntries: a sorted copy; its argument stays as it is. */
  method SortedCopy(entries: seq<ObjectEntry>, sortBy: string, desc: bool) returns (sorted: seq<ObjectEntry>)
    ensures sorted == SortEntries(entries, sortBy, desc)
  {
    sorted := [];
    for i := 0 to |entries|
      invariant sorted == SortEntries(entries[..i], sortBy, desc)
    {
      assert entries[..i + 1][..i] == entries[..i];
      sorted := InsertInto(sorted, entries[i], sortBy, desc);
    }
    assert entries[..|entries|] == entries;
  }

  class ListingCache {
    var entries: Cache

    constructor ()
      ensures entries == map[]
    {
      entries := map[];
    }

    method Get(key: CacheKey) returns (entry: CacheEntry, ok: bool)
      ensures ok == (key in entries) && (ok ==> entry == entries[key])
    {
      ok := key in entries;
      entry := if ok then entries[key] else CacheEntry([], 0, false);
    }

    method Set(key: CacheKey, entry: CacheEntry)
      modifies this
      ensures entries == old(entries)[key := entry]
    {
      entries := entries[key := entry];
    }

    method AppendPage(key: CacheKey, page: seq<ObjectEntry>, nextToken: nat, isTruncated: bool)
      modifies this
      ensures entries == old(entries)[key := CacheEntry(Stored(old(entries), key) + page, nextToken, isTruncated)]
    {
      var existing := if key in entries then entries[key].entries else [];
      entries := entries[key := CacheEntry(existing + page, nextToken, isTruncated)];
    }

    method Invalidate(key: CacheKey)
      modifies this
      ensures entries == old(entries) - {key}
    {
      entries := entries - {key};
    }
  }

  class FileManagerService {
    const cache: ListingCache

    constructor (cache: ListingCache)
      ensures this.cache == cache
    {
      this.cache := cache;
    }

    method ListObjects(server: Server, req: Request, fails: bool) returns (response: Option<Response>)
      modifies cache
      ensures (cache.entries, response) == Handle(old(cache.entries), server, req, fails)
    {
      if req.refresh {
        cache.Invalidate(req.key);
      }
      if req.token == 0 && !req.refresh {
        var cached, ok := cache.Get(req.key);
        if ok {
          var sorted := SortedCopy(cached.entries, req.sortBy, req.desc);
          return Some(Response(sorted, cached.nextToken, cached.isTruncated));
        }
      }
      if fails || req.token >= |server(req.key)| {
        return None;
      }
      response := FetchAndCachePage(server, req);
    }

    method FetchAndCachePage(server: Server, req: Request) returns (response: Option<Response>)
      requires req.token < |server(req.key)|
      modifies cache
      ensures cache.entries == WithPage(old(cache.entries), req, server(req.key))
      ensures response == Some(Answer(cache.entries[req.key], req))
    {
      var page, nextToken := server(req.key)[req.token], TokenAfter(server(req.key), req.token + 1);
      var isTruncated := nextToken != 0;
      if req.token != 0 {
        cache.AppendPage(req.key, page, nextToken, isTruncated);
      } else {
        cache.Set(req.key, CacheEntry(page, nextToken, isTruncated));
        assert [] + page == page;
      }
      var cached, _ := cache.Get(req.key);
      var sorted := SortedCopy(cached.entries, req.sortBy, req.desc);
      response := Some(Response(sorted, nextToken, isTruncated));
    }
  }
}
