/** The helpers of uavstats/utils.py (and the identical path helpers of
    rasterstats/utils.py): POSIX path splitting, directory filtering and following
    the `@iot.nextLink` pages of a SensorThings collection. The directory listing and
    the HTTP fetch are inputs. */
module Utils {
  import opened Wrappers
  import opened Text
  import opened SensorThings

  // ---------------------------------------------------------------------------
  // Paths (POSIX `os.path`)

  /** `os.path.basename`: everything after the last '/'. */
  function Basename(p: string): (b: string)
    ensures '/' !in b
    ensures exists i :: 0 <= i <= |p| && p[i..] == b
  {
    var i := RFind(p, '/') + 1;
    assert forall j :: 0 <= j < |p[i..]| ==> p[i..][j] == p[i + j];
    p[i..]
  }

  /** Some character of `p` strictly between `lo` and `hi` is not a dot. */
  predicate NonDotBetween(p: string, lo: int, hi: int)
  {
    exists i :: 0 <= lo <= i < hi <= |p| && p[i] != '.'
  }

  /** `os.path.splitext`: the extension starts at the last '.', provided it lies in the
      last path component and that component has a character other than '.' before
      it (so `.bashrc` and `a/..` have no extension). */
  function SplitExt(p: string): (string, string)
  {
    var sep := RFind(p, '/');
    var dot := RFind(p, '.');
    if dot > sep && NonDotBetween(p, sep + 1, dot) then (p[..dot], p[dot..]) else (p, "")
  }

  /** A final path component with an extension: some '.' in it has a character other
      than '.' somewhere before it. */
  predicate DottedName(name: string)
  {
    exists i, j :: 0 <= j < i < |name| && name[j] != '.' && name[i] == '.'
  }

  /** Root and extension put back together give the path; the extension is non-empty
      exactly when the basename has a '.' preceded by a non-dot character, and then it is
      one '.' followed by neither '.' nor '/', so it starts at the path's last '.'. */
  lemma SplitExtSpec(p: string)
    ensures SplitExt(p).0 + SplitExt(p).1 == p
    ensures SplitExt(p).1 != [] <==> DottedName(Basename(p))
    ensures var ext := SplitExt(p).1;
      ext == [] || (ext[0] == '.' && forall j :: 1 <= j < |ext| ==> ext[j] != '.' && ext[j] != '/')
  {
    SplitExtDotted(p);
    var dot := RFind(p, '.');
    var sep := RFind(p, '/');
    if dot > sep && NonDotBetween(p, sep + 1, dot) {
      assert p[..dot] + p[dot..] == p;
      var ext := p[dot..];
      forall j | 1 <= j < |ext|
        ensures ext[j] != '.' && ext[j] != '/'
      {
        assert ext[j] == p[dot + j];
      }
    }
  }

  /** `splitext`'s test on the whole path is `DottedName` on the basename. */
  lemma SplitExtDotted(p: string)
    ensures DottedName(Basename(p)) ==> RFind(p, '.') > RFind(p, '/') && NonDotBetween(p, RFind(p, '/') + 1, RFind(p, '.'))
    ensures RFind(p, '.') > RFind(p, '/') && NonDotBetween(p, RFind(p, '/') + 1, RFind(p, '.')) ==> DottedName(Basename(p))
  {
    BasenameIs(p);
    DottedSplits(p, RFind(p, '/'), RFind(p, '.'));
    SplitsDotted(p, RFind(p, '/'), RFind(p, '.'));
  }

  lemma DottedSplits(p: string, sep: int, dot: int)
    requires sep == RFind(p, '/') && dot == RFind(p, '.')
    ensures DottedName(p[sep + 1..]) ==> dot > sep && NonDotBetween(p, sep + 1, dot)
  {
    var b := p[sep + 1..];
    if DottedName(b) {
      var i, j :| 0 <= j < i < |b| && b[j] != '.' && b[i] == '.';
      assert b[i] == p[sep + 1 + i] && b[j] == p[sep + 1 + j];
      assert dot >= sep + 1 + i;
      assert sep + 1 <= sep + 1 + j < dot && p[sep + 1 + j] != '.';
    }
  }

  lemma SplitsDotted(p: string, sep: int, dot: int)
    requires sep == RFind(p, '/') && dot == RFind(p, '.')
    ensures dot > sep && NonDotBetween(p, sep + 1, dot) ==> DottedName(p[sep + 1..])
  {
    if dot > sep && NonDotBetween(p, sep + 1, dot) {
      var w :| 0 <= sep + 1 <= w < dot <= |p| && p[w] != '.';
      DottedSlice(p, sep + 1, w, dot);
    }
  }

  /** A non-dot followed later by a dot makes every slice starting before both dotted. */
  lemma DottedSlice(p: string, lo: int, w: int, dot: int)
    requires 0 <= lo <= w < dot < |p| && p[w] != '.' && p[dot] == '.'
    ensures DottedName(p[lo..])
  {
    var b := p[lo..];
    assert b[w - lo] == p[w] && b[dot - lo] == p[dot];
  }

  /** The basename is the path after its last '/'. */
  lemma BasenameIs(p: string)
    ensures Basename(p) == p[RFind(p, '/') + 1..]
  {
  }

  /** The basename is the suffix of the path that starts right after a '/' (or at the
      start) and holds no '/': the part after the last '/'. */
  lemma BasenameSpec(p: string)
    ensures var b := Basename(p);
      && '/' !in b
      && |b| <= |p| && b == p[|p| - |b|..]
      && (|b| == |p| || p[|p| - |b| - 1] == '/')
  {
    BasenameIs(p);
  }

  /** `get_file_extension`: the path from its last '.' on, when the basename has a '.'
      preceded by a non-dot character, else nothing. */
  function FileExtension(p: string): (ext: string)
    ensures EndsWith(p, ext)
    ensures ext != [] <==> DottedName(Basename(p))
    ensures ext == [] || (ext[0] == '.' && forall j :: 1 <= j < |ext| ==> ext[j] != '.' && ext[j] != '/')
  {
    SplitExtSpec(p);
    var (root, e) := SplitExt(p);
    assert p[|p| - |e|..] == e;
    e
  }

  /** `get_file_name`: the basename without its last extension. */
  function FileName(p: string): (name: string)
    ensures '/' !in name
    ensures name + FileExtension(Basename(p)) == Basename(p)
    ensures name == Basename(p) <==> !DottedName(Basename(p))
  {
    SplitExtOfName(Basename(p));
    SplitExt(Basename(p)).0
  }

  /** Splitting a name without '/': the root has no '/' either, root and extension give
      the name back, and the root is the whole name exactly when the name is not dotted. */
  lemma SplitExtOfName(b: string)
    requires '/' !in b
    ensures '/' !in SplitExt(b).0
    ensures SplitExt(b).0 + FileExtension(b) == b
    ensures SplitExt(b).0 == b <==> !DottedName(b)
  {
    BasenameOfName(b);
    SplitExtSpec(b);
    var name := SplitExt(b).0;
    assert FileExtension(b) == SplitExt(b).1;
    assert forall j :: 0 <= j < |name| ==> name[j] == b[j];
  }

  /** A name without '/' is its own basename. */
  lemma BasenameOfName(name: string)
    requires '/' !in name
    ensures Basename(name) == name
  {
  }

  /** `os.path.join(dir, name)` with two parts. */
  function PathJoin(dir: string, name: string): string
  {
    if |name| > 0 && name[0] == '/' then name
    else if dir == [] || EndsWith(dir, "/") then dir + name
    else dir + "/" + name
  }

  /** The paths `get_files` keeps from a listing, in listing order. */
  function Kept(dir: string, extensions: seq<string>, listing: seq<string>): seq<string>
  {
    if listing == [] then []
    else
      var last := listing[|listing| - 1];
      Kept(dir, extensions, listing[..|listing| - 1]) + (if EndsWithAny(last, extensions) then [PathJoin(dir, last)] else [])
  }

  /** A path is kept exactly when it is the join of a listed name ending with one of the
      extensions; none is kept for an empty extension list. */
  lemma {:induction false} KeptSpec(dir: string, extensions: seq<string>, listing: seq<string>)
    ensures |Kept(dir, extensions, listing)| <= |listing|
    ensures forall f :: f in Kept(dir, extensions, listing) <==> Selected(dir, extensions, listing, f)
    ensures extensions == [] ==> Kept(dir, extensions, listing) == []
  {
    KeptLength(dir, extensions, listing);
    KeptMembers(dir, extensions, listing);
    if extensions == [] {
      KeptNone(dir, listing);
    }
  }

  /** `f` is `input_dir` joined with a listed entry that ends in one of the extensions. */
  predicate Selected(dir: string, extensions: seq<string>, listing: seq<string>, f: string)
  {
    exists k :: 0 <= k < |listing| && EndsWithAny(listing[k], extensions) && f == PathJoin(dir, listing[k])
  }

  lemma {:induction false} KeptLength(dir: string, extensions: seq<string>, listing: seq<string>)
    ensures |Kept(dir, extensions, listing)| <= |listing|
  {
    if listing != [] {
      KeptLength(dir, extensions, listing[..|listing| - 1]);
    }
  }

  lemma {:induction false} KeptNone(dir: string, listing: seq<string>)
    ensures Kept(dir, [], listing) == []
  {
    if listing != [] {
      KeptNone(dir, listing[..|listing| - 1]);
      assert !EndsWithAny(listing[|listing| - 1], []);
    }
  }

  lemma {:induction false} KeptMembers(dir: string, extensions: seq<string>, listing: seq<string>)
    ensures forall f :: f in Kept(dir, extensions, listing) <==> Selected(dir, extensions, listing, f)
  {
    if listing != [] {
      var init := listing[..|listing| - 1];
      var last := listing[|listing| - 1];
      KeptMembers(dir, extensions, init);
      var tail := if EndsWithAny(last, extensions) then [PathJoin(dir, last)] else [];
      assert Kept(dir, extensions, listing) == Kept(dir, extensions, init) + tail;
      forall f ensures f in Kept(dir, extensions, listing) <==> Selected(dir, extensions, listing, f) {
        if f in Kept(dir, extensions, init) {
          var k :| 0 <= k < |init| && EndsWithAny(init[k], extensions) && f == PathJoin(dir, init[k]);
          assert listing[k] == init[k];
        } else if f in tail {
          assert listing[|listing| - 1] == last;
        }
        if Selected(dir, extensions, listing, f) {
          var k :| 0 <= k < |listing| && EndsWithAny(listing[k], extensions) && f == PathJoin(dir, listing[k]);
          if k < |init| {
            assert init[k] == listing[k];
            assert Selected(dir, extensions, init, f);
          }
        }
      }
    }
  }


  /** Kept paths keep the relative order of their names in the listing. */
  lemma {:induction false} KeptAppend(dir: string, extensions: seq<string>, xs: seq<string>, ys: seq<string>)
    ensures Kept(dir, extensions, xs + ys) == Kept(dir, extensions, xs) + Kept(dir, extensions, ys)
  {
    if ys != [] {
      var yi := ys[..|ys| - 1];
      assert (xs + ys)[..|xs + ys| - 1] == xs + yi;
      KeptAppend(dir, extensions, xs, yi);
    } else {
      assert xs + ys == xs;
    }
  }

  /** `get_files(input_dir, extensions)` over the names `os.listdir` gave. */
  method GetFiles(inputDir: string, extensions: seq<string>, listing: seq<string>) returns (files: seq<string>)
    ensures files == Kept(inputDir, extensions, listing)
  {
    files := [];
    var k := 0;
    while k < |listing|
      invariant 0 <= k <= |listing|
      invariant files == Kept(inputDir, extensions, listing[..k])
    {
      assert listing[..k + 1][..k] == listing[..k];
      if EndsWithAny(listing[k], extensions) {
        files := files + [PathJoin(inputDir, listing[k])];
      }
      k := k + 1;
    }
    assert listing[..k] == listing;
  }

  // ---------------------------------------------------------------------------
  // Pagination

  /** A fetched page: its `value` list (None when the key is absent) and its
      `@iot.nextLink` ("" when absent or otherwise falsy). */
  datatype Page = Page(value: Option<seq<Json>>, nextLink: string)

  /** `fetch_data` failing ends the process with `sys.exit(1)`; a page without `value`
      raises KeyError. */
  datatype PageError = RequestFailed | ValueMissing

  /** The outcome of following a chain: the entities or the error, and the URLs
      requested, in order. */
  datatype Run = Run(entities: Result<seq<Json>, PageError>, requested: seq<string>)

  /** Following the chain from `url` stops within `fuel` requests. */
  predicate Ends(fetch: string -> Option<Page>, url: string, fuel: nat)
    decreases fuel
  {
    fuel > 0 &&
    match fetch(url)
    case None => true
    case Some(page) => page.value.None? || page.nextLink == "" || Ends(fetch, page.nextLink, fuel - 1)
  }

  /** The first `requested` URLs and entities come before those of the rest of the chain. */
  function Prepend(entities: seq<Json>, requested: seq<string>, rest: Run): Run
  {
    Run(match rest.entities
        case Success(v) => Success(entities + v)
        case Failure(e) => Failure(e),
        requested + rest.requested)
  }

  /** The chain of pages from `url`. */
  function Follow(fetch: string -> Option<Page>, url: string, fuel: nat): (r: Run)
    requires Ends(fetch, url, fuel)
    ensures |r.requested| >= 1 && r.requested[0] == url
    decreases fuel
  {
    match fetch(url)
    case None => Run(Failure(RequestFailed), [url])
    case Some(page) =>
      if page.value.None? then Run(Failure(ValueMissing), [url])
      else if page.nextLink == "" then Run(Success(page.value.value), [url])
      else Prepend(page.value.value, [url], Follow(fetch, page.nextLink, fuel - 1))
  }

  /** The values of the pages at `urls`, concatenated in order. */
  function Values(fetch: string -> Option<Page>, urls: seq<string>): seq<Json>
  {
    if urls == [] then []
    else
      var last := fetch(urls[|urls| - 1]);
      Values(fetch, urls[..|urls| - 1]) + (if last.Some? && last.value.value.Some? then last.value.value.value else [])
  }

  lemma {:induction false} ValuesCons(fetch: string -> Option<Page>, u: string, urls: seq<string>)
    ensures Values(fetch, [u] + urls) == Values(fetch, [u]) + Values(fetch, urls)
  {
    if urls != [] {
      var init := urls[..|urls| - 1];
      assert ([u] + urls)[..|[u] + urls| - 1] == [u] + init;
      ValuesCons(fetch, u, init);
    }
  }

  /** Requesting `u` fetched a page with a value whose `@iot.nextLink` is `v`, non-empty. */
  predicate LinksTo(fetch: string -> Option<Page>, u: string, v: string)
  {
    fetch(u).Some? && fetch(u).value.value.Some? && fetch(u).value.nextLink == v && v != ""
  }

  /** Each URL requested but the last is linked from the page before it. */
  predicate Chained(fetch: string -> Option<Page>, urls: seq<string>)
  {
    forall i :: 0 <= i < |urls| - 1 ==> LinksTo(fetch, urls[i], urls[i + 1])
  }

  /** The requests follow exactly the links the pages supply, starting from `url`. */
  lemma {:induction false} FollowChained(fetch: string -> Option<Page>, url: string, fuel: nat)
    requires Ends(fetch, url, fuel)
    ensures Chained(fetch, Follow(fetch, url, fuel).requested)
    decreases fuel
  {
    var page := fetch(url);
    if page.Some? && page.value.value.Some? && page.value.nextLink != "" {
      var rest := Follow(fetch, page.value.nextLink, fuel - 1);
      FollowChained(fetch, page.value.nextLink, fuel - 1);
      var urls := [url] + rest.requested;
      forall i | 0 <= i < |urls| - 1
        ensures LinksTo(fetch, urls[i], urls[i + 1])
      {
        if i > 0 {
          assert urls[i] == rest.requested[i - 1];
        }
      }
    }
  }

  /** On success the result is the concatenation of the `value` lists of every page
      requested, in fetch order, and the last page has no next link. */
  lemma {:induction false} FollowValues(fetch: string -> Option<Page>, url: string, fuel: nat)
    requires Ends(fetch, url, fuel)
    requires Follow(fetch, url, fuel).entities.Success?
    ensures Follow(fetch, url, fuel).entities.value == Values(fetch, Follow(fetch, url, fuel).requested)
    ensures var urls := Follow(fetch, url, fuel).requested;
      fetch(urls[|urls| - 1]).Some? && fetch(urls[|urls| - 1]).value.nextLink == ""
    decreases fuel
  {
    var page := fetch(url).value;
    assert [url][..0] == [];
    assert Values(fetch, [url]) == page.value.value;
    if page.nextLink != "" {
      var rest := Follow(fetch, page.nextLink, fuel - 1);
      var r := Follow(fetch, url, fuel);
      assert r == Prepend(page.value.value, [url], rest);
      FollowValues(fetch, page.nextLink, fuel - 1);
      ValuesCons(fetch, url, rest.requested);
      assert r.requested[|r.requested| - 1] == rest.requested[|rest.requested| - 1];
    }
  }

  /** On failure no list is returned, and the error is the one of the last request:
      the fetch failed (exit 1) or its page had no `value` (KeyError). */
  lemma {:induction false} FollowFailure(fetch: string -> Option<Page>, url: string, fuel: nat)
    requires Ends(fetch, url, fuel)
    requires Follow(fetch, url, fuel).entities.Failure?
    ensures var urls := Follow(fetch, url, fuel).requested;
      Follow(fetch, url, fuel).entities.error == (if fetch(urls[|urls| - 1]).None? then RequestFailed else ValueMissing)
    ensures var urls := Follow(fetch, url, fuel).requested;
      fetch(urls[|urls| - 1]).Some? ==> fetch(urls[|urls| - 1]).value.value.None?
    decreases fuel
  {
    var page := fetch(url);
    if page.Some? && page.value.value.Some? && page.value.nextLink != "" {
      FollowFailure(fetch, page.value.nextLink, fuel - 1);
    }
  }

  /** One step of the chain: what requesting `url` contributes and where it continues. */
  lemma FollowStep(fetch: string -> Option<Page>, url: string, fuel: nat)
    requires Ends(fetch, url, fuel)
    ensures fetch(url).None? ==> Follow(fetch, url, fuel) == Run(Failure(RequestFailed), [url])
    ensures fetch(url).Some? && fetch(url).value.value.None? ==> Follow(fetch, url, fuel) == Run(Failure(ValueMissing), [url])
    ensures fetch(url).Some? && LinksTo(fetch, url, fetch(url).value.nextLink) ==>
      && fuel >= 1
      && Ends(fetch, fetch(url).value.nextLink, fuel - 1)
      && Follow(fetch, url, fuel) == Prepend(fetch(url).value.value.value, [url], Follow(fetch, fetch(url).value.nextLink, fuel - 1))
  {
  }

  lemma {:induction false} PrependAssoc(a: seq<Json>, ra: seq<string>, b: seq<Json>, rb: seq<string>, rest: Run)
    ensures Prepend(a, ra, Prepend(b, rb, rest)) == Prepend(a + b, ra + rb, rest)
  {
    assert ra + (rb + rest.requested) == (ra + rb) + rest.requested;
    match rest.entities
    case Success(v) => assert a + (b + v) == (a + b) + v;
    case Failure(_) =>
  }

  /** `fetch_sensorthingsapi(url)`: fetch the first page, then keep fetching the page
      its `@iot.nextLink` names while that link is non-empty, extending the list with
      each page's `value`. Also returns the URLs requested, in order. */
  method FetchSensorThingsApi(fetch: string -> Option<Page>, url: string, ghost fuel: nat)
    returns (entities: Result<seq<Json>, PageError>, requested: seq<string>)
    requires Ends(fetch, url, fuel)
    ensures Run(entities, requested) == Follow(fetch, url, fuel)
  {
    requested := [url];
    var data := fetch(url);
    if data.None? {
      return Failure(RequestFailed), requested;
    }
    if data.value.value.None? {
      return Failure(ValueMissing), requested;
    }
    var fetched := data.value.value.value;
    var page := data.value;
    FollowStep(fetch, url, fuel);
    ghost var k: nat := if page.nextLink != "" then fuel - 1 else 0;
    while page.nextLink != ""
      invariant page.nextLink != "" ==> Ends(fetch, page.nextLink, k)
      invariant page.nextLink != "" ==> Follow(fetch, url, fuel) == Prepend(fetched, requested, Follow(fetch, page.nextLink, k))
      invariant page.nextLink == "" ==> Follow(fetch, url, fuel) == Run(Success(fetched), requested)
      decreases k
    {
      var link := page.nextLink;
      var next := fetch(link);
      FollowStep(fetch, link, k);
      ghost var prev := requested;
      requested := requested + [link];
      if next.None? {
        return Failure(RequestFailed), requested;
      }
      if next.value.value.None? {
        return Failure(ValueMissing), requested;
      }
      var v := next.value.value.value;
      if next.value.nextLink != "" {
        PrependAssoc(fetched, prev, v, [link], Follow(fetch, next.value.nextLink, k - 1));
      } else {
        assert Follow(fetch, link, k) == Run(Success(v), [link]);
      }
      k := k - 1;
      fetched := fetched + v;
      page := next.value;
    }
    return Success(fetched), requested;
  }
}
