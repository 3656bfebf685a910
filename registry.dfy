/**
 * The registry behind the MCP server's tools, prompts and resources, as server_test.go fixes
 * its contract: each kind is a map keyed by name (resources by URI) that `Register*` and
 * `Deregister*` update, each successful mutation sends one `list_changed` notification of the
 * matching kind, and listing walks the keys in lexicographic order, `limit` at a time, with
 * the last key of a page as the cursor for the next one.
 */
module Registry {
  import opened Wrappers

  // ---------------------------------------------------------------- lexicographic order

  /** Go's `<` on strings (code-point order, which is also the order of their UTF-8 bytes). */
  predicate Less(a: string, b: string)
    decreases |a|
  {
    if |a| == 0 then |b| > 0
    else |b| > 0 && (a[0] < b[0] || (a[0] == b[0] && Less(a[1..], b[1..])))
  }

  lemma {:induction false} LessIrreflexive(a: string)
    ensures !Less(a, a)
    decreases |a|
  {
    if |a| > 0 {
      LessIrreflexive(a[1..]);
    }
  }

  lemma {:induction false} LessTransitive(a: string, b: string, c: string)
    requires Less(a, b) && Less(b, c)
    ensures Less(a, c)
    decreases |a|
  {
    if |a| > 0 && a[0] == b[0] && b[0] == c[0] {
      LessTransitive(a[1..], b[1..], c[1..]);
    }
  }

  lemma {:induction false} LessTotal(a: string, b: string)
    requires a != b
    ensures Less(a, b) || Less(b, a)
    decreases |a|
  {
    if |a| > 0 && |b| > 0 && a[0] == b[0] {
      assert a == [a[0]] + a[1..] && b == [b[0]] + b[1..];
      LessTotal(a[1..], b[1..]);
    }
  }

  lemma LessAsymmetric(a: string, b: string)
    requires Less(a, b)
    ensures !Less(b, a)
  {
    if Less(b, a) {
      LessTransitive(a, b, a);
      LessIrreflexive(a);
    }
  }

  // ---------------------------------------------------------------- sorted listing

  /** Strictly increasing, hence free of repeats. */
  predicate Strict(s: seq<string>) {
    forall i, j :: 0 <= i < j < |s| ==> Less(s[i], s[j])
  }

  predicate IsMin(m: string, keys: set<string>) {
    m in keys && forall x :: x in keys && x != m ==> Less(m, x)
  }

  lemma {:induction false} HasMin(keys: set<string>)
    requires keys != {}
    ensures exists m :: IsMin(m, keys)
    decreases |keys|
  {
    var y :| y in keys;
    if keys != {y} {
      var rest := keys - {y};
      HasMin(rest);
      var m :| IsMin(m, rest);
      if Less(y, m) {
        forall x | x in keys && x != y
          ensures Less(y, x)
        {
          if x != m {
            LessTransitive(y, m, x);
          }
        }
        assert IsMin(y, keys);
      } else {
        LessTotal(m, y);
        assert IsMin(m, keys);
      }
    } else {
      assert IsMin(y, keys);
    }
  }

  lemma MinUnique(m: string, n: string, keys: set<string>)
    requires IsMin(m, keys) && IsMin(n, keys)
    ensures m == n
  {
    if m != n {
      LessAsymmetric(m, n);
    }
  }

  ghost function Min(keys: set<string>): (m: string)
    requires keys != {}
    ensures IsMin(m, keys)
  {
    HasMin(keys);
    var m :| IsMin(m, keys);
    m
  }

  /** The keys in lexicographic order: the least key, then the listing of the others. */
  ghost function Listing(keys: set<string>): seq<string>
    decreases |keys|
  {
    if keys == {} then []
    else
      var m := Min(keys);
      [m] + Listing(keys - {m})
  }

  /** The listing is strictly increasing and holds exactly the keys. */
  lemma {:induction false} ListingSorted(keys: set<string>)
    ensures Strict(Listing(keys))
    ensures forall x :: x in Listing(keys) <==> x in keys
    ensures |Listing(keys)| == |keys|
    decreases |keys|
  {
    if keys != {} {
      var m := Min(keys);
      var rest := Listing(keys - {m});
      ListingSorted(keys - {m});
      var s := [m] + rest;
      forall i, j | 0 <= i < j < |s|
        ensures Less(s[i], s[j])
      {
        if i == 0 {
          assert s[j] == rest[j - 1] && rest[j - 1] in rest;
        } else {
          assert s[i] == rest[i - 1] && s[j] == rest[j - 1];
        }
      }
    }
  }

  lemma HeadIn(s: seq<string>)
    requires |s| > 0
    ensures s[0] in s
  {
  }

  /** Only one strictly increasing sequence holds a given set of keys. */
  lemma {:induction false} StrictUnique(a: seq<string>, b: seq<string>)
    requires Strict(a) && Strict(b)
    requires forall x :: x in a <==> x in b
    ensures a == b
    decreases |a|
  {
    if |a| == 0 {
      if |b| > 0 {
        HeadIn(b);
        assert false;
      }
    } else {
      assert a[0] in b;
      if a[0] != b[0] {
        assert b[0] in a;
        var i :| 0 <= i < |a| && a[i] == b[0];
        var j :| 0 <= j < |b| && b[j] == a[0];
        assert Less(a[0], a[i]) && Less(b[0], b[j]);
        LessAsymmetric(a[0], b[0]);
        assert false;
      }
      forall x
        ensures x in a[1..] <==> x in b[1..]
      {
        if x in a[1..] {
          var i :| 1 <= i < |a| && a[i] == x;
          assert Less(a[0], x);
          LessIrreflexive(x);
          assert x in b && x != b[0];
          var j :| 0 <= j < |b| && b[j] == x;
          assert b[1..][j - 1] == x;
        }
        if x in b[1..] {
          var j :| 1 <= j < |b| && b[j] == x;
          assert Less(b[0], x);
          LessIrreflexive(x);
          assert x in a && x != a[0];
          var i :| 0 <= i < |a| && a[i] == x;
          assert a[1..][i - 1] == x;
        }
      }
      StrictUnique(a[1..], b[1..]);
      assert a == [a[0]] + a[1..] && b == [b[0]] + b[1..];
    }
  }

  /** Any strictly increasing sequence of exactly the keys is their listing. */
  lemma ListingIsTheSortedKeys(keys: set<string>, s: seq<string>)
    requires Strict(s) && forall x :: x in s <==> x in keys
    ensures s == Listing(keys)
  {
    ListingSorted(keys);
    StrictUnique(s, Listing(keys));
  }

  /** Sorting the keys by repeatedly taking the least one left. */
  method SortKeys(keys: set<string>) returns (r: seq<string>)
    ensures r == Listing(keys)
    ensures Strict(r) && forall x :: x in r <==> x in keys
  {
    r := [];
    var rest := keys;
    while rest != {}
      invariant rest <= keys
      invariant r + Listing(rest) == Listing(keys)
      decreases |rest|
    {
      HasMin(rest);
      var m :| IsMin(m, rest);
      MinUnique(m, Min(rest), rest);
      assert Listing(rest) == [m] + Listing(rest - {m});
      r := r + [m];
      rest := rest - {m};
    }
    ListingSorted(keys);
  }

  // ---------------------------------------------------------------- pages

  /** A page size; a set `paginationLimit` is positive. */
  type PageLimit = n: int | n > 0 witness 1

  datatype Page = Page(items: seq<string>, nextCursor: Option<string>)

  datatype RegistryError =
    | InvalidCursor(cursor: string)
    | NotFound(key: string)

  function Position(s: seq<string>, x: string): (i: nat)
    requires x in s
    ensures i < |s| && s[i] == x && x !in s[..i]
  {
    if s[0] == x then 0
    else
      var i := Position(s[1..], x);
      assert s[..i + 1] == [s[0]] + s[1..][..i];
      i + 1
  }

  /** Where a page starts: after the cursor, or at the beginning without one. */
  function Start(ordered: seq<string>, cursor: Option<string>): (i: nat)
    requires cursor.Some? ==> cursor.value in ordered
    ensures i <= |ordered|
  {
    if cursor.None? then 0 else Position(ordered, cursor.value) + 1
  }

  /** Where a page starting at `start` ends. */
  function End(ordered: seq<string>, start: nat, limit: Option<PageLimit>): (j: nat)
    requires start <= |ordered|
    ensures start <= j <= |ordered|
  {
    if limit.None? || start + limit.value > |ordered| then |ordered| else start + limit.value
  }

  /**
   * One page of `ordered`: an unknown cursor fails; otherwise up to `limit` consecutive keys
   * after the cursor, with the last of them as the next cursor when keys remain.
   */
  function Paginate(ordered: seq<string>, cursor: Option<string>, limit: Option<PageLimit>): (r: Result<Page, RegistryError>)
    ensures r.Failure? <==> cursor.Some? && cursor.value !in ordered
    ensures r.Failure? ==> r.error == InvalidCursor(cursor.value)
  {
    if cursor.Some? && cursor.value !in ordered then Failure(InvalidCursor(cursor.value))
    else
      var i := Start(ordered, cursor);
      var j := End(ordered, i, limit);
      Success(Page(ordered[i..j], if j < |ordered| then Some(ordered[j - 1]) else None))
  }

  /**
   * A page is the run of keys right after the cursor: `limit` of them while that many
   * remain, never more, and a next cursor, the page's last key, exactly when keys remain
   * after it.
   */
  lemma PageContents(ordered: seq<string>, cursor: Option<string>, limit: Option<PageLimit>)
    requires Paginate(ordered, cursor, limit).Success?
    ensures var p := Paginate(ordered, cursor, limit).value;
      var i := Start(ordered, cursor);
      var j := End(ordered, i, limit);
      && p.items == ordered[i..j]
      && (limit.Some? ==> |p.items| <= limit.value)
      && (limit.Some? && i + limit.value <= |ordered| ==> |p.items| == limit.value)
      && (p.nextCursor.None? <==> j == |ordered|)
      && (p.nextCursor.Some? ==> |p.items| > 0 && p.nextCursor.value == p.items[|p.items| - 1])
  {
  }

  predicate Distinct(s: seq<string>) {
    forall i, j :: 0 <= i < j < |s| ==> s[i] != s[j]
  }

  lemma StrictIsDistinct(s: seq<string>)
    requires Strict(s)
    ensures Distinct(s)
  {
    forall i, j | 0 <= i < j < |s|
      ensures s[i] != s[j]
    {
      LessIrreflexive(s[i]);
    }
  }

  lemma PositionOfDistinct(s: seq<string>, k: nat)
    requires Distinct(s) && k < |s|
    ensures Position(s, s[k]) == k
  {
    var p := Position(s, s[k]);
    if p > k {
      InPrefix(s, k, p);
      assert false;
    }
  }

  lemma InPrefix(s: seq<string>, k: int, p: int)
    requires 0 <= k < p <= |s|
    ensures s[k] in s[..p]
  {
    assert s[..p][k] == s[k];
  }

  /** The next cursor resumes right after the last key returned. */
  lemma CursorContinues(ordered: seq<string>, cursor: Option<string>, limit: Option<PageLimit>)
    requires Distinct(ordered)
    requires Paginate(ordered, cursor, limit).Success?
    requires Paginate(ordered, cursor, limit).value.nextCursor.Some?
    ensures var next := Paginate(ordered, cursor, limit).value.nextCursor;
      Start(ordered, next) == End(ordered, Start(ordered, cursor), limit)
  {
    var j := End(ordered, Start(ordered, cursor), limit);
    PageContents(ordered, cursor, limit);
    PositionOfDistinct(ordered, j - 1);
  }

  /** The keys from `cursor` on, collected page by page until no cursor is returned. */
  function Collect(ordered: seq<string>, cursor: Option<string>, limit: PageLimit): seq<string>
    requires Distinct(ordered)
    requires cursor.Some? ==> cursor.value in ordered
    decreases |ordered| - Start(ordered, cursor)
  {
    var p := Paginate(ordered, cursor, Some(limit)).value;
    if p.nextCursor.None? then p.items
    else
      CursorContinues(ordered, cursor, Some(limit));
      p.items + Collect(ordered, p.nextCursor, limit)
  }

  /** Walking the pages yields every key from the start, in order, with no gaps or repeats. */
  lemma {:induction false} CollectIsRest(ordered: seq<string>, cursor: Option<string>, limit: PageLimit)
    requires Distinct(ordered)
    requires cursor.Some? ==> cursor.value in ordered
    ensures Collect(ordered, cursor, limit) == ordered[Start(ordered, cursor)..]
    decreases |ordered| - Start(ordered, cursor)
  {
    var p := Paginate(ordered, cursor, Some(limit)).value;
    var i := Start(ordered, cursor);
    var j := End(ordered, i, Some(limit));
    PageContents(ordered, cursor, Some(limit));
    if p.nextCursor.Some? {
      CursorContinues(ordered, cursor, Some(limit));
      CollectIsRest(ordered, p.nextCursor, limit);
      calc {
        Collect(ordered, cursor, limit);
        p.items + Collect(ordered, p.nextCursor, limit);
        ordered[i..j] + ordered[j..];
        { SliceSplit(ordered, i, j); }
        ordered[i..];
      }
    }
  }

  lemma SliceSplit(s: seq<string>, i: int, j: int)
    requires 0 <= i <= j <= |s|
    ensures s[i..] == s[i..j] + s[j..]
  {
  }

  lemma CollectAll(ordered: seq<string>, limit: PageLimit)
    requires Distinct(ordered)
    ensures Collect(ordered, None, limit) == ordered
  {
    CollectIsRest(ordered, None, limit);
  }

  /** Following the cursors through the sorted keys lists every registered key exactly once. */
  lemma ListingPagesCoverAll(keys: set<string>, limit: PageLimit)
    ensures Distinct(Listing(keys)) && Collect(Listing(keys), None, limit) == Listing(keys)
  {
    ListingSorted(keys);
    StrictIsDistinct(Listing(keys));
    CollectAll(Listing(keys), limit);
  }

  // ---------------------------------------------------------------- the registry

  const ToolsListChanged: string := "notifications/tools/list_changed"
  const PromptsListChanged: string := "notifications/prompts/list_changed"
  const ResourcesListChanged: string := "notifications/resources/list_changed"

  datatype ToolDescriptor = ToolDescriptor(name: string, description: string, handler: HandlerId)
  datatype PromptDescriptor = PromptDescriptor(name: string, description: string, handler: HandlerId)
  datatype ResourceDescriptor =
    ResourceDescriptor(uri: string, name: string, description: string, mimeType: string, handler: HandlerId)

  /** A page of descriptors and the cursor for the next one. */
  datatype Listed<T> = Listed(items: seq<T>, nextCursor: Option<string>)

  /** What a list call answers for the entries of `m`: a page of its sorted keys, as descriptors. */
  ghost function ListOf<T>(m: map<string, T>, cursor: Option<string>, limit: Option<PageLimit>): Result<Listed<T>, RegistryError> {
    ListingSorted(m.Keys);
    ListFrom(m, Listing(m.Keys), cursor, limit)
  }

  /** The page of `ordered` that `cursor` and `limit` select, as the descriptors of its keys. */
  function ListFrom<T>(m: map<string, T>, ordered: seq<string>, cursor: Option<string>, limit: Option<PageLimit>)
    : Result<Listed<T>, RegistryError>
    requires forall x :: x in ordered ==> x in m
  {
    match Paginate(ordered, cursor, limit)
    case Failure(e) => Failure(e)
    case Success(p) =>
      PageContents(ordered, cursor, limit);
      assert forall i :: 0 <= i < |p.items| ==> p.items[i] in ordered;
      Success(Listed(seq(|p.items|, i requires 0 <= i < |p.items| => m[p.items[i]]), p.nextCursor))
  }

  class Server {
    var tools: map<string, ToolDescriptor>
    var prompts: map<string, PromptDescriptor>
    var resources: map<string, ResourceDescriptor>
    var paginationLimit: Option<PageLimit>
    /** The `list_changed` notifications sent, oldest first. */
    var notifications: seq<string>

    constructor ()
      ensures tools == map[] && prompts == map[] && resources == map[]
      ensures paginationLimit.None? && notifications == []
    {
      tools, prompts, resources := map[], map[], map[];
      paginationLimit := None;
      notifications := [];
    }

    method SetPaginationLimit(limit: Option<PageLimit>)
      modifies this`paginationLimit
      ensures paginationLimit == limit
    {
      paginationLimit := limit;
    }

    /** Adds or replaces a tool and announces the change. */
    method RegisterTool(name: string, description: string, handler: HandlerId) returns (err: Option<RegistryError>)
      modifies this`tools, this`notifications
      ensures err.None?
      ensures tools == old(tools)[name := ToolDescriptor(name, description, handler)]
      ensures notifications == old(notifications) + [ToolsListChanged]
    {
      tools := tools[name := ToolDescriptor(name, description, handler)];
      notifications := notifications + [ToolsListChanged];
      err := None;
    }

    /** Removes a registered tool and announces the change; an unknown name changes nothing. */
    method DeregisterTool(name: string) returns (err: Option<RegistryError>)
      modifies this`tools, this`notifications
      ensures name !in old(tools) ==> err == Some(NotFound(name)) && tools == old(tools) && notifications == old(notifications)
      ensures name in old(tools) ==>
        err.None? && tools == old(tools) - {name} && notifications == old(notifications) + [ToolsListChanged]
    {
      if name !in tools {
        return Some(NotFound(name));
      }
      tools := tools - {name};
      notifications := notifications + [ToolsListChanged];
      err := None;
    }

    method RegisterPrompt(name: string, description: string, handler: HandlerId) returns (err: Option<RegistryError>)
      modifies this`prompts, this`notifications
      ensures err.None?
      ensures prompts == old(prompts)[name := PromptDescriptor(name, description, handler)]
      ensures notifications == old(notifications) + [PromptsListChanged]
    {
      prompts := prompts[name := PromptDescriptor(name, description, handler)];
      notifications := notifications + [PromptsListChanged];
      err := None;
    }

    method DeregisterPrompt(name: string) returns (err: Option<RegistryError>)
      modifies this`prompts, this`notifications
      ensures name !in old(prompts) ==>
        err == Some(NotFound(name)) && prompts == old(prompts) && notifications == old(notifications)
      ensures name in old(prompts) ==>
        err.None? && prompts == old(prompts) - {name} && notifications == old(notifications) + [PromptsListChanged]
    {
      if name !in prompts {
        return Some(NotFound(name));
      }
      prompts := prompts - {name};
      notifications := notifications + [PromptsListChanged];
      err := None;
    }

    method RegisterResource(uri: string, name: string, description: string, mimeType: string, handler: HandlerId)
      returns (err: Option<RegistryError>)
      modifies this`resources, this`notifications
      ensures err.None?
      ensures resources == old(resources)[uri := ResourceDescriptor(uri, name, description, mimeType, handler)]
      ensures notifications == old(notifications) + [ResourcesListChanged]
    {
      resources := resources[uri := ResourceDescriptor(uri, name, description, mimeType, handler)];
      notifications := notifications + [ResourcesListChanged];
      err := None;
    }

    method DeregisterResource(uri: string) returns (err: Option<RegistryError>)
      modifies this`resources, this`notifications
      ensures uri !in old(resources) ==>
        err == Some(NotFound(uri)) && resources == old(resources) && notifications == old(notifications)
      ensures uri in old(resources) ==>
        err.None? && resources == old(resources) - {uri} && notifications == old(notifications) + [ResourcesListChanged]
    {
      if uri !in resources {
        return Some(NotFound(uri));
      }
      resources := resources - {uri};
      notifications := notifications + [ResourcesListChanged];
      err := None;
    }

    /** `tools/list`: a page of the tools in name order. */
    method ListTools(cursor: Option<string>) returns (r: Result<Listed<ToolDescriptor>, RegistryError>)
      ensures r == ListOf(tools, cursor, paginationLimit)
    {
      var ordered := SortKeys(tools.Keys);
      r := ListFrom(tools, ordered, cursor, paginationLimit);
    }

    /** `prompts/list`: a page of the prompts in name order. */
    method ListPrompts(cursor: Option<string>) returns (r: Result<Listed<PromptDescriptor>, RegistryError>)
      ensures r == ListOf(prompts, cursor, paginationLimit)
    {
      var ordered := SortKeys(prompts.Keys);
      r := ListFrom(prompts, ordered, cursor, paginationLimit);
    }

    /** `resources/list`: a page of the resources in URI order. */
    method ListResources(cursor: Option<string>) returns (r: Result<Listed<ResourceDescriptor>, RegistryError>)
      ensures r == ListOf(resources, cursor, paginationLimit)
    {
      var ordered := SortKeys(resources.Keys);
      r := ListFrom(resources, ordered, cursor, paginationLimit);
    }
  }

  /** One registration sends exactly one notification, of the matching kind. */
  method RegisterThenDeregister(s: Server, name: string, description: string, handler: HandlerId)
    modifies s
    ensures s.tools == old(s.tools) - {name}
    ensures s.notifications == old(s.notifications) + [ToolsListChanged, ToolsListChanged]
  {
    var e1 := s.RegisterTool(name, description, handler);
    var e2 := s.DeregisterTool(name);
  }

  /** The pagination scenario: five tools registered out of order, listed two at a time. */
  const ScenarioTools: seq<string> := ["a-tool", "b-tool", "c-tool", "d-tool", "e-tool"]

  lemma ScenarioOrder()
    ensures Listing({"b-tool", "a-tool", "c-tool", "e-tool", "d-tool"}) == ScenarioTools
  {
    var s := ScenarioTools;
    forall i, j | 0 <= i < j < |s|
      ensures Less(s[i], s[j])
    {
      assert s[i][0] < s[j][0];
    }
    ListingIsTheSortedKeys({"b-tool", "a-tool", "c-tool", "e-tool", "d-tool"}, s);
  }

  lemma ScenarioFirstPage()
    ensures Paginate(ScenarioTools, None, Some(2)) == Success(Page(["a-tool", "b-tool"], Some("b-tool")))
  {
    var s := ScenarioTools;
    assert s[0..2] == [s[0], s[1]];
  }

  lemma ScenarioSecondPage()
    ensures Paginate(ScenarioTools, Some("b-tool"), Some(2)) == Success(Page(["c-tool", "d-tool"], Some("d-tool")))
  {
    var s := ScenarioTools;
    assert s[1] == "b-tool";
    PositionOfDistinctLiteral(1);
    assert s[2..4] == [s[2], s[3]];
  }

  lemma ScenarioLastPage()
    ensures Paginate(ScenarioTools, Some("d-tool"), Some(2)) == Success(Page(["e-tool"], None))
  {
    var s := ScenarioTools;
    assert s[3] == "d-tool";
    PositionOfDistinctLiteral(3);
    assert s[4..5] == [s[4]];
  }

  lemma ScenarioInvalidCursor()
    ensures Paginate(ScenarioTools, Some("invalid-cursor"), Some(2)) == Failure(InvalidCursor("invalid-cursor"))
  {
    var s := ScenarioTools;
    forall i | 0 <= i < |s|
      ensures s[i] != "invalid-cursor"
    {
      assert s[i][0] != "invalid-cursor"[0];
    }
  }

  lemma PositionOfDistinctLiteral(k: nat)
    requires k < |ScenarioTools|
    ensures Position(ScenarioTools, ScenarioTools[k]) == k
  {
    var s := ScenarioTools;
    forall i, j | 0 <= i < j < |s|
      ensures s[i] != s[j]
    {
      assert s[i][0] != s[j][0];
    }
    PositionOfDistinct(s, k);
  }
}
