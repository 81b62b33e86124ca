/** internal/discovery/discovery.go: one endpoint for each name and URL; internal/dashboard/service.go: one account for each login. */
module Discovery {
  import opened Text
  import opened Sorting
  import opened Usage
  import opened Grouping
  import opened Gathering

  datatype Endpoint = Endpoint(name: string, url: string, source: string, apiKey: string)

  /** The comparator `Less`. */
  predicate Before(a: Endpoint, b: Endpoint) {
    if a.source != b.source then a.source == "yaml"
    else if a.url != b.url then Less(a.url, b.url)
    else Less(a.name, b.name)
  }

  /** Endpoints come from the endpoint file or from Docker. */
  predicate Known(e: Endpoint) {
    e.source == "yaml" || e.source == "docker"
  }

  predicate SameIdentity(a: Endpoint, b: Endpoint) {
    a.source == b.source && a.url == b.url && a.name == b.name
  }

  /** Two endpoints that must not both be kept. */
  predicate Clash(a: Endpoint, b: Endpoint) {
    a.url == b.url || a.name == b.name
  }

  /** Keeps each endpoint that clashes with none kept before it. */
  function Kept(items: seq<Endpoint>): seq<Endpoint> {
    if items == [] then []
    else
      var rest, e := Kept(items[..|items| - 1]), items[|items| - 1];
      if exists k :: k in rest && Clash(k, e) then rest else rest + [e]
  }

  /** What `Deduplicate` returns. */
  function Deduplicated(items: seq<Endpoint>): seq<Endpoint> {
    Kept(StableSort(items, Before))
  }

  method Deduplicate(items: array<Endpoint>) returns (out: seq<Endpoint>)
    requires forall i | 0 <= i < items.Length :: Known(items[i])
    modifies items
    ensures items[..] == StableSort(old(items[..]), Before)
    ensures out == Deduplicated(old(items[..]))
  {
    hide Kept, StableSort;
    SortStable(items);
    KeptNone();
    out := [];
    var seenURLs: set<string>, seenNames: set<string> := {}, {};
    for i := 0 to items.Length
      invariant items[..] == StableSort(old(items[..]), Before)
      invariant out == Kept(items[..i])
      invariant forall u :: u in seenURLs <==> exists k :: k in out && k.url == u
      invariant forall n :: n in seenNames <==> exists k :: k in out && k.name == n
    {
      var e := items[i];
      assert items[..i + 1] == items[..i] + [e];
      KeptOne(items[..i], e);
      if e.url !in seenURLs && e.name !in seenNames {
        seenURLs := seenURLs + {e.url};
        seenNames := seenNames + {e.name};
        out := out + [e];
      }
    }
    assert items[..items.Length] == items[..];
  }

  lemma KeptNone()
    ensures Kept([]) == []
  {
  }

  lemma KeptOne(items: seq<Endpoint>, e: Endpoint)
    ensures Kept(items + [e]) == if exists k :: k in Kept(items) && Clash(k, e) then Kept(items) else Kept(items) + [e]
  {
    assert (items + [e])[..|items|] == items;
  }

  /** `sort.SliceStable` sorts in place. */
  method SortStable(items: array<Endpoint>)
    modifies items
    ensures items[..] == StableSort(old(items[..]), Before)
  {
    var sorted := StableSort(items[..], Before);
    StableSortKeeps(items[..], Before);
    assert |multiset(sorted)| == |sorted| && |multiset(items[..])| == |items[..]|;
    forall i | 0 <= i < items.Length {
      items[i] := sorted[i];
    }
    assert items[..] == sorted;
  }

  lemma BeforeOrders(items: seq<Endpoint>)
    requires forall e | e in items :: Known(e)
    ensures WeakOrder(items, Before)
  {
    TotalOrder();
  }

  // ---- what is kept

  /** The kept endpoints are in order, and no two share a name or a URL. */
  lemma {:induction false} KeptClash(items: seq<Endpoint>)
    ensures forall i, j | 0 <= i < j < |Kept(items)| :: !Clash(Kept(items)[i], Kept(items)[j])
    ensures forall e | e in Kept(items) :: e in items
    ensures Sorted(items, Before) ==> Sorted(Kept(items), Before)
  {
    if items != [] {
      var init, e := items[..|items| - 1], items[|items| - 1];
      KeptClash(init);
      assert items == init + [e];
      forall i | 0 <= i < |Kept(init)|
        ensures Kept(init)[i] in init
      {
      }
      assert Sorted(items, Before) ==> forall k | k in init :: !Before(e, k);
    }
  }

  /** A dropped endpoint shares a name or URL with a kept one that does not come after it. */
  lemma {:induction false} DroppedClash(items: seq<Endpoint>, e: Endpoint)
    requires Sorted(items, Before) && e in items && forall x | x in items :: !Before(x, x)
    ensures exists k :: k in Kept(items) && Clash(k, e) && !Before(e, k)
  {
    hide Before, Less;
    var init, last := items[..|items| - 1], items[|items| - 1];
    assert items == init + [last];
    KeptClash(init);
    if e in init {
      DroppedClash(init, e);
      var k :| k in Kept(init) && Clash(k, e) && !Before(e, k);
      assert k in Kept(items);
    } else if k :| k in Kept(init) && Clash(k, e) {
      assert k in init;
      assert k in Kept(items) && !Before(e, k);
    } else {
      assert e in Kept(items) && Clash(e, e);
    }
  }

  /** Names and URLs are pairwise distinct, and whatever was dropped clashes with something kept that is not after it. */
  lemma DeduplicatedRight(items: seq<Endpoint>)
    requires forall e | e in items :: Known(e)
    ensures var out := Deduplicated(items);
      && (forall i, j | 0 <= i < j < |out| :: out[i].url != out[j].url && out[i].name != out[j].name)
      && (forall e | e in out :: e in items) && Sorted(out, Before)
      && (forall e | e in items :: exists k :: k in out && (k.url == e.url || k.name == e.name) && !Before(e, k))
  {
    var sorted := StableSort(items, Before);
    BeforeOrders(items);
    StableSortKeeps(items, Before);
    StableSortSorts(items, Before);
    SameElements(items, sorted);
    KeptClash(sorted);
    forall e | e in items
      ensures exists k :: k in Deduplicated(items) && Clash(k, e) && !Before(e, k)
    {
      DroppedClash(sorted, e);
    }
    var out := Deduplicated(items);
    forall i, j | 0 <= i < j < |out|
      ensures out[i].url != out[j].url && out[i].name != out[j].name
    {
      assert !Clash(out[i], out[j]);
    }
  }

  /** What the order of the kept endpoints means: those of the endpoint file first, then by URL. */
  lemma FileFirst(items: seq<Endpoint>)
    requires forall e | e in items :: Known(e)
    ensures var out := Deduplicated(items);
      && (forall i, j | 0 <= i < j < |out| && out[j].source == "yaml" :: out[i].source == "yaml")
      && (forall i, j | 0 <= i < j < |out| && out[i].source == out[j].source :: Less(out[i].url, out[j].url))
  {
    DeduplicatedRight(items);
    hide *;
    InOrder(Deduplicated(items));
  }

  /** An endpoint of the file gives way only to another one of the file. */
  lemma FileKept(items: seq<Endpoint>, e: Endpoint)
    requires (forall x | x in items :: Known(x)) && e in items && e.source == "yaml"
    ensures exists k :: k in Deduplicated(items) && k.source == "yaml" && (k.url == e.url || k.name == e.name)
  {
    DeduplicatedRight(items);
    hide *;
    var k :| k in Deduplicated(items) && (k.url == e.url || k.name == e.name) && !Before(e, k);
    YamlStays(e, k);
  }

  lemma InOrder(out: seq<Endpoint>)
    requires Sorted(out, Before) && forall i, j | 0 <= i < j < |out| :: out[i].url != out[j].url
    ensures forall i, j | 0 <= i < j < |out| && out[j].source == "yaml" :: out[i].source == "yaml"
    ensures forall i, j | 0 <= i < j < |out| && out[i].source == out[j].source :: Less(out[i].url, out[j].url)
  {
    hide Less;
    forall i, j | 0 <= i < j < |out|
      ensures out[j].source == "yaml" ==> out[i].source == "yaml"
      ensures out[i].source == out[j].source ==> Less(out[i].url, out[j].url)
    {
      Trichotomy(out[i].url, out[j].url);
    }
  }

  lemma YamlStays(e: Endpoint, k: Endpoint)
    requires e.source == "yaml" && !Before(e, k)
    ensures k.source == "yaml"
  {
    hide Less;
  }

  lemma {:induction false} KeptAll(items: seq<Endpoint>)
    requires forall i, j | 0 <= i < j < |items| :: !Clash(items[i], items[j])
    ensures Kept(items) == items
  {
    if items != [] {
      var init, e := items[..|items| - 1], items[|items| - 1];
      KeptAll(init);
      assert items == init + [e];
    }
  }

  lemma {:induction false} SortedStays(items: seq<Endpoint>)
    requires Sorted(items, Before)
    ensures StableSort(items, Before) == items
  {
    if items != [] {
      var n := |items| - 1;
      SortedStays(items[..n]);
      assert items == items[..n] + [items[n]];
    }
  }

  /** A second pass changes nothing. */
  lemma DeduplicatedTwice(items: seq<Endpoint>)
    requires forall e | e in items :: Known(e)
    ensures Deduplicated(Deduplicated(items)) == Deduplicated(items)
  {
    DeduplicatedRight(items);
    var out := Deduplicated(items);
    SortedStays(out);
    KeptAll(out);
  }

  /** Endpoints that differ in source, URL or name are kept or dropped in the same way whatever order they come in. */
  lemma DeduplicatedOrderFree(items: seq<Endpoint>, again: seq<Endpoint>)
    requires multiset(items) == multiset(again) && forall e | e in items :: Known(e)
    requires forall a, b | a in items && b in items && SameIdentity(a, b) :: a == b
    ensures Deduplicated(items) == Deduplicated(again)
  {
    hide StableSort, Before, WeakOrder, Telling, Sorted;
    var s, t := StableSort(items, Before), StableSort(again, Before);
    SameElements(items, again);
    BeforeOrders(items);
    BeforeOrders(again);
    StableSortKeeps(items, Before);
    StableSortSorts(items, Before);
    StableSortKeeps(again, Before);
    StableSortSorts(again, Before);
    SameElements(items, s);
    BeforeOrders(s);
    BeforeTells(s);
    SortedUnique(s, t, Before);
  }

  lemma BeforeTells(items: seq<Endpoint>)
    requires forall e | e in items :: Known(e)
    requires forall a, b | a in items && b in items && SameIdentity(a, b) :: a == b
    ensures Telling(items, Before)
  {
    TotalOrder();
  }

  // ---- one account per login

  datatype Resolved = Resolved(endpoint: Endpoint, login: string)

  function LoginKey(r: Resolved): string { Lower(r.login) }

  /** The first endpoint to answer with each login, among the first `n`. */
  function FirstAnswers(endpoints: seq<Endpoint>, logins: seq<Option<string>>, n: nat): seq<Resolved>
    requires n <= |endpoints| == |logins|
  {
    if n == 0 then []
    else
      var rest := FirstAnswers(endpoints, logins, n - 1);
      if logins[n - 1].None? || (exists a :: a in rest && LoginKey(a) == Lower(logins[n - 1].value)) then rest
      else rest + [Resolved(endpoints[n - 1], logins[n - 1].value)]
  }

  /** Endpoint `i` is the first to answer with its login. */
  ghost predicate AnswersFirst(logins: seq<Option<string>>, i: int) {
    && 0 <= i < |logins| && logins[i].Some?
    && forall j | 0 <= j < i && logins[j].Some? :: Lower(logins[j].value) != Lower(logins[i].value)
  }

  /** Some account has the login that endpoint `i` answered with. */
  ghost predicate HasLogin(accounts: seq<Resolved>, login: string) {
    exists a :: a in accounts && LoginKey(a) == Lower(login)
  }

  /** The account is the first answer with its login, from one of the first `n` endpoints. */
  ghost predicate FromFirst(endpoints: seq<Endpoint>, logins: seq<Option<string>>, n: nat, a: Resolved)
    requires n <= |endpoints| == |logins|
  {
    exists i :: 0 <= i < n && AnswersFirst(logins, i) && a == Resolved(endpoints[i], logins[i].value)
  }

  /** For each login that was answered there is one account, from the first endpoint that answered with it. */
  lemma {:induction false} FirstAnswersRight(endpoints: seq<Endpoint>, logins: seq<Option<string>>, n: nat)
    requires n <= |endpoints| == |logins|
    ensures Distinct(FirstAnswers(endpoints, logins, n), LoginKey)
    ensures forall i | 0 <= i < n && logins[i].Some? :: HasLogin(FirstAnswers(endpoints, logins, n), logins[i].value)
    ensures forall a | a in FirstAnswers(endpoints, logins, n) :: FromFirst(endpoints, logins, n, a)
    decreases n
  {
    if n > 0 {
      FirstAnswersRight(endpoints, logins, n - 1);
      var rest, all := FirstAnswers(endpoints, logins, n - 1), FirstAnswers(endpoints, logins, n);
      assert all == rest || all == rest + [Resolved(endpoints[n - 1], logins[n - 1].value)];
      if logins[n - 1].None? || HasLogin(rest, logins[n - 1].value) {
        hide Lower, FirstAnswers, HasLogin;
        SameAnswers(endpoints, logins, n);
      } else {
        hide Lower, FirstAnswers, HasLogin;
        OneMoreAnswer(endpoints, logins, n, rest);
      }
    }
  }

  lemma SameAnswers(endpoints: seq<Endpoint>, logins: seq<Option<string>>, n: nat)
    requires 0 < n <= |endpoints| == |logins|
    ensures forall a | FromFirst(endpoints, logins, n - 1, a) :: FromFirst(endpoints, logins, n, a)
  {
    hide AnswersFirst;
  }

  lemma OneMoreAnswer(endpoints: seq<Endpoint>, logins: seq<Option<string>>, n: nat, rest: seq<Resolved>)
    requires 0 < n <= |endpoints| == |logins| && logins[n - 1].Some? && !HasLogin(rest, logins[n - 1].value)
    requires Distinct(rest, LoginKey)
    requires forall i | 0 <= i < n - 1 && logins[i].Some? :: HasLogin(rest, logins[i].value)
    requires forall a | a in rest :: FromFirst(endpoints, logins, n - 1, a)
    ensures var all := rest + [Resolved(endpoints[n - 1], logins[n - 1].value)];
      && Distinct(all, LoginKey)
      && (forall i | 0 <= i < n && logins[i].Some? :: HasLogin(all, logins[i].value))
      && (forall a | a in all :: FromFirst(endpoints, logins, n, a))
  {
    hide Lower;
    var last := Resolved(endpoints[n - 1], logins[n - 1].value);
    SameAnswers(endpoints, logins, n);
    assert AnswersFirst(logins, n - 1);
    forall i | 0 <= i < n && logins[i].Some?
      ensures HasLogin(rest + [last], logins[i].value)
    {
      if i < n - 1 {
        assert HasLogin(rest, logins[i].value);
        var a :| a in rest && LoginKey(a) == Lower(logins[i].value);
        assert a in rest + [last];
      } else {
        assert last in rest + [last] && LoginKey(last) == Lower(logins[i].value);
      }
    }
  }

  /** The endpoint at a place, if it did not answer. */
  function Silent(endpoints: seq<Endpoint>, logins: seq<Option<string>>): int -> Option<Endpoint>
    requires |endpoints| == |logins|
  {
    i => if 0 <= i < |logins| && logins[i].None? then Some(endpoints[i]) else None
  }

  /** Every endpoint that did not answer is listed once, in the order they were asked, and no other is. */
  lemma SilentExactly(endpoints: seq<Endpoint>, logins: seq<Option<string>>, failed: seq<Endpoint>) returns (places: seq<int>)
    requires |endpoints| == |logins| && failed == Gathered(Silent(endpoints, logins), |logins|)
    ensures |places| == |failed|
    ensures forall k | 0 <= k < |places| :: 0 <= places[k] < |logins| && logins[places[k]].None? && failed[k] == endpoints[places[k]]
    ensures forall j, k | 0 <= j < k < |places| :: places[j] < places[k]
    ensures forall i | 0 <= i < |logins| && logins[i].None? :: i in places
  {
    places := GatheredExactly(Silent(endpoints, logins), |logins|);
  }

  /** The second half of `resolve`: `logins` are the answers of the deduplicated endpoints, absent where one failed. */
  method ResolveAccounts(endpoints: seq<Endpoint>, logins: seq<Option<string>>)
    returns (accounts: seq<Resolved>, failed: seq<Endpoint>)
    requires |endpoints| == |logins|
    ensures Ascending(accounts, LoginKey)
    ensures multiset(accounts) == multiset(FirstAnswers(endpoints, logins, |logins|))
    ensures failed == Gathered(Silent(endpoints, logins), |logins|)
  {
    accounts, failed := [], [];
    var seen: set<string> := {};
    for n := 0 to |logins|
      invariant accounts == FirstAnswers(endpoints, logins, n)
      invariant forall k :: k in seen <==> exists a :: a in accounts && LoginKey(a) == k
      invariant failed == Gathered(Silent(endpoints, logins), n)
    {
      if logins[n].None? {
        failed := failed + [endpoints[n]];
        continue;
      }
      var key := Lower(logins[n].value);
      if key !in seen {
        seen := seen + {key};
        var answered := Resolved(endpoints[n], logins[n].value);
        ghost var before := accounts;
        accounts := accounts + [answered];
        assert forall a :: a in accounts <==> a in before || a == answered;
        assert LoginKey(answered) == key;
      }
    }
    FirstAnswersRight(endpoints, logins, |logins|);
    accounts := SortByKey(accounts, LoginKey);
  }
}
