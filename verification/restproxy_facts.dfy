/**
  Properties of the proxy core: alias resolution, the order of the trap's checks,
  the path a chain of accesses accumulates, the request an action forms, option
  merging at construction, and the two ways of calling the constructor.
*/
module RestProxyFacts {
  import opened Results
  import opened Js
  import Paths
  import Uri
  import opened RestProxy

  // ---- Aliases and verbs ----

  /** The canonical verb of each alias, written out case by case; other names stand for themselves. */
  function Canonical(name: string): string
  {
    if name == "fetch" then "get"
    else if name == "update" || name == "modify" || name == "change" then "post"
    else if name == "add" || name == "create" || name == "insert" then "put"
    else if name == "remove" then "delete"
    else name
  }

  /** Every name that dispatches a verb under the built-in table. */
  const VerbNames: set<string> := {
    "get", "put", "post", "delete",
    "fetch", "update", "modify", "change", "add", "create", "insert", "remove"
  }

  /** The built-in table maps each of the eight aliases to its verb and every other name to itself. */
  lemma DefaultAliases(name: string)
    ensures MethodFor(DefaultOptions, name) == Ok(Str(Canonical(name)))
  {
  }

  /**
    With the built-in table, an access that is not passed through dispatches a verb
    exactly when the name is a verb or an alias, and otherwise becomes a segment.
  */
  lemma DefaultResolution(t: Target, name: string, realm: Realm)
    requires Lookup(t.options, "methodAliases") == Obj(MethodAliases)
    requires !Bypassed(t, Name(name), realm)
    ensures Resolve(t, Name(name), realm).Ok?
    ensures Resolve(t, Name(name), realm).value.Verb? <==> name in VerbNames
    ensures name in VerbNames ==>
              Resolve(t, Name(name), realm) == Ok(Verb(VerbOf(Canonical(name))))
    ensures name !in VerbNames ==> Resolve(t, Name(name), realm) == Ok(Segment(name))
  {
    assert MethodFor(t.options, name) == Ok(Str(Canonical(name))) by {
      DefaultAliases(name);
    }
  }

  function VerbOf(name: string): Method
  {
    if name == "get" then Get
    else if name == "put" then Put
    else if name == "post" then Post
    else Delete
  }

  /** An alias and its verb resolve identically, so they dispatch the same request. */
  lemma AliasActsAsVerb(t: Target, alias: string, args: seq<Value>, realm: Realm)
    requires Lookup(t.options, "methodAliases") == Obj(MethodAliases)
    requires alias in MethodAliases
    requires !Bypassed(t, Name(alias), realm) && !Bypassed(t, Name(Canonical(alias)), realm)
    ensures Access(t, Name(alias), realm) == Access(t, Name(Canonical(alias)), realm)
    ensures Access(t, Name(alias), realm) == Ok(Dispatcher(t, VerbOf(Canonical(alias))))
  {
    DefaultResolution(t, alias, realm);
    DefaultResolution(t, Canonical(alias), realm);
  }

  /**
    Whatever the alias table, a segment is never a name whose alias lookup gives a
    verb, and an access that is not passed through yields a verb or a segment.
  */
  lemma VerbNeverSegment(t: Target, key: Key, realm: Realm)
    requires Resolve(t, key, realm).Ok?
    ensures Resolve(t, key, realm).value.Segment? <==>
              !Bypassed(t, key, realm) && MethodOf(MethodFor(t.options, key.s).value).None?
    ensures Resolve(t, key, realm).value.Verb? <==>
              !Bypassed(t, key, realm) && MethodOf(MethodFor(t.options, key.s).value).Some?
  {
  }

  /**
    The pass-through checks come before the alias lookup: a bypassed name is
    returned from the target even when the alias table is missing or maps it to a verb.
  */
  lemma PassthroughBeforeAliases(t: Target, key: Key, realm: Realm)
    requires Bypassed(t, key, realm)
    ensures Resolve(t, key, realm) == Ok(Passthrough)
    ensures Access(t, key, realm) == Ok(Property)
  {
  }

  /** A missing alias table makes every other access throw. */
  lemma MissingAliasTableThrows(t: Target, name: string, realm: Realm)
    requires Lookup(t.options, "methodAliases") == Undefined
    requires !Bypassed(t, Name(name), realm)
    ensures Resolve(t, Name(name), realm) == Throw(TypeError)
  {
  }

  /** `path` is a member of every node but not of the root, where it names a segment. */
  lemma PathMemberOnlyOnNodes(t: Target, realm: Realm)
    requires Lookup(t.options, "methodAliases") == Obj(MethodAliases)
    requires "path" !in realm.objectMembers
    ensures t.Root? ==> Resolve(t, Name("path"), realm) == Ok(Segment("path"))
    ensures !t.Root? ==> Resolve(t, Name("path"), realm) == Ok(Passthrough)
  {
    if t.Root? {
      DefaultResolution(t, "path", realm);
    }
  }

  // ---- Nodes and paths ----

  /** An uncalled access yields a node whose path is the name alone and whose options are the parent's. */
  lemma UncalledAccess(t: Target, name: string, realm: Realm)
    requires Resolve(t, Name(name), realm) == Ok(Segment(name))
    ensures Access(t, Name(name), realm).Ok?
    ensures var n := Access(t, Name(name), realm).value;
            n.Node? && PathOf(n.node) == Some([name]) && n.node.options == t.options
  {
  }

  /**
    Calling the node of a segment access: the path is the parent's path (when it has
    one), then the name, then every argument stringified; the options are the parent's.
  */
  lemma CalledAccess(t: Target, name: string, args: seq<Value>, realm: Realm)
    requires Resolve(t, Name(name), realm) == Ok(Segment(name))
    ensures var n := Access(t, Name(name), realm).value.node;
            var prefix := if HasPath(t) then PathOf(t).value else [];
            && Apply(n, args).Ok?
            && var e := Apply(n, args).value;
            && e.options == t.options
            && LaidOutAs(e.path, prefix, name, Strings(args))
  {
    var prefix := if HasPath(t) then PathOf(t).value else [];
    assert Access(t, Name(name), realm) == Ok(Node(Child(t, name)));
    assert Apply(Child(t, name), args) == Ok(Element(t, name, args));
    var e := Element(t, name, args);
    assert e.path == prefix + ([name] + Strings(args)) by {
      if !HasPath(t) {
        assert [] + ([name] + Strings(args)) == [name] + Strings(args);
      }
    }
    LaidOut(prefix, name, Strings(args));
  }

  /** `path` is `prefix`, then `name`, then `rest`, position by position. */
  predicate LaidOutAs(path: seq<string>, prefix: seq<string>, name: string, rest: seq<string>)
  {
    && |path| == |prefix| + 1 + |rest|
    && path[..|prefix|] == prefix
    && path[|prefix|] == name
    && forall i :: 0 <= i < |rest| ==> path[|prefix| + 1 + i] == rest[i]
  }

  lemma LaidOut(prefix: seq<string>, name: string, rest: seq<string>)
    ensures LaidOutAs(prefix + ([name] + rest), prefix, name, rest)
  {
  }

  /** A number argument gives the same segment as its decimal string. */
  lemma NumberArgumentIsItsString(parent: Target, name: string, n: int)
    ensures Element(parent, name, [Num(n)]) == Element(parent, name, [Str(Decimal(n))])
  {
    assert Strings([Num(n)]) == Strings([Str(Decimal(n))]);
  }

  /** The decimal form of an integer is a URL segment, so number arguments never disturb the URL. */
  lemma DecimalIsUrlSegment(n: int)
    ensures Uri.UrlSegment(Decimal(n))
  {
    var d := NatToDecimal(if n < 0 then -n else n);
    assert IsDigit(d[|d| - 1]);
    if n < 0 {
      var s := "-" + d;
      forall k | 0 <= k < |s| ensures Uri.Unreserved(s[k]) {
        if k > 0 {
          assert s[k] == d[k - 1];
        }
      }
      assert s[|s| - 1] == d[|d| - 1];
    } else {
      forall k | 0 <= k < |d| ensures Uri.Unreserved(d[k]) {
        assert IsDigit(d[k]);
      }
    }
  }

  /** One access in a chain: `.name` or `.name(args...)`. */
  datatype Step = Read(name: string) | Invoke(name: string, args: seq<Value>)

  /** Follows a chain of accesses from `t`; `None` once a step is not a path segment. */
  function Walk(t: Target, steps: seq<Step>, realm: Realm): Option<Target>
    decreases |steps|
  {
    if |steps| == 0 then Some(t)
    else
      match Walk(t, steps[..|steps| - 1], realm)
      case None => None
      case Some(cur) =>
        var step := steps[|steps| - 1];
        match Access(cur, Name(step.name), realm)
        case Ok(Node(child)) =>
          (match step
           case Read(_) => Some(child)
           case Invoke(_, args) =>
             match Apply(child, args)
             case Ok(e) => Some(e)
             case Throw(_) => None)
        case _ => None
  }

  /** The segments one step contributes. */
  function Contribution(step: Step): seq<string>
  {
    match step
    case Read(name) => [name]
    case Invoke(name, args) => [name] + Strings(args)
  }

  /** The segments of a run of steps, in order. */
  function Contributions(steps: seq<Step>): seq<string>
    decreases |steps|
  {
    if |steps| == 0 then [] else Contributions(steps[..|steps| - 1]) + Contribution(steps[|steps| - 1])
  }

  /** The index of the last uncalled access, or 0 when every step is a call. */
  function LastRead(steps: seq<Step>): (i: nat)
    ensures |steps| > 0 ==> i < |steps|
    ensures |steps| == 0 ==> i == 0
    decreases |steps|
  {
    if |steps| == 0 then 0
    else if steps[|steps| - 1].Read? then |steps| - 1
    else LastRead(steps[..|steps| - 1])
  }

  lemma {:induction false} ContributionsStart(steps: seq<Step>)
    requires |steps| > 0
    ensures |Contributions(steps)| > 0 && Contributions(steps)[0] == steps[0].name
    decreases |steps|
  {
    if |steps| > 1 {
      ContributionsStart(steps[..|steps| - 1]);
    }
  }

  predicate NamedSteps(steps: seq<Step>)
  {
    forall i :: 0 <= i < |steps| ==> steps[i].name != ""
  }

  /**
    The path of the node a chain of segment accesses reaches from the root: the
    segments contributed from the last uncalled access onwards. An uncalled access
    therefore discards everything before it. The options are the root's throughout.
  */
  lemma {:induction false} WalkPath(root: Target, steps: seq<Step>, realm: Realm)
    requires root.Root? && |steps| > 0 && NamedSteps(steps)
    requires Walk(root, steps, realm).Some?
    ensures var n := Walk(root, steps, realm).value;
            && PathOf(n) == Some(Contributions(steps[LastRead(steps)..]))
            && n.options == root.options
    decreases |steps|
  {
    var k := |steps| - 1;
    var prefix := steps[..k];
    var step := steps[k];
    var cur := Walk(root, prefix, realm).value;
    var child := Child(cur, step.name);
    assert Access(cur, Name(step.name), realm) == Ok(Node(child));
    var n := Walk(root, steps, realm).value;
    assert k > 0 ==> cur.options == root.options && PathOf(cur) == Some(Contributions(prefix[LastRead(prefix)..])) by {
      if k > 0 {
        WalkPath(root, prefix, realm);
      }
    }
    match step
    case Read(name) =>
      assert n == child;
      assert steps[k..] == [step];
      ContributionsOne(step);
    case Invoke(name, args) =>
      assert n == Element(cur, name, args);
      var j := LastRead(steps);
      assert j == LastRead(prefix);
      if k == 0 {
        assert steps[j..] == [step];
        ContributionsOne(step);
      } else {
        var p := Contributions(prefix[j..]);
        assert HasPath(cur) by {
          ContributionsStart(prefix[j..]);
          Paths.RenderEmpty(p);
        }
        assert PathOf(n) == Some(p + Contribution(step));
        ContributionsSuffix(steps, j);
      }
  }

  lemma ContributionsOne(step: Step)
    ensures Contributions([step]) == Contribution(step)
  {
    assert [step][..0] == [];
  }

  /** The contributions of a suffix split off its last step. */
  lemma ContributionsSuffix(steps: seq<Step>, j: nat)
    requires j < |steps| - 1
    ensures Contributions(steps[j..]) == Contributions(steps[..|steps| - 1][j..]) + Contribution(steps[|steps| - 1])
  {
    var suffix := steps[j..];
    var last := |suffix| - 1;
    assert suffix[..last] == steps[..|steps| - 1][j..];
    assert suffix[last] == steps[|steps| - 1];
    assert Contributions(suffix) == Contributions(suffix[..last]) + Contribution(suffix[last]);
  }

  /** Every step after the first is a call: the path holds every contribution in order. */
  lemma CalledChainPath(root: Target, steps: seq<Step>, realm: Realm)
    requires root.Root? && |steps| > 0 && NamedSteps(steps)
    requires forall i :: 1 <= i < |steps| ==> steps[i].Invoke?
    requires Walk(root, steps, realm).Some?
    ensures PathOf(Walk(root, steps, realm).value) == Some(Contributions(steps))
  {
    WalkPath(root, steps, realm);
    LastReadOfCalls(steps);
  }

  /** `Walk` with the uncalled access corrected to `JoinedChild`. */
  function WalkJoined(t: Target, steps: seq<Step>, realm: Realm): Option<Target>
    decreases |steps|
  {
    if |steps| == 0 then Some(t)
    else
      match WalkJoined(t, steps[..|steps| - 1], realm)
      case None => None
      case Some(cur) =>
        var step := steps[|steps| - 1];
        match Access(cur, Name(step.name), realm)
        case Ok(Node(child)) =>
          (match step
           case Read(_) => Some(JoinedChild(cur, step.name))
           case Invoke(_, args) =>
             match Apply(child, args)
             case Ok(e) => Some(e)
             case Throw(_) => None)
        case _ => None
  }

  /**
    Corrected, no access discards anything: after any chain from the root the node's
    path holds every step's contribution in order, and the options are the root's.
  */
  lemma {:induction false} JoinedWalkPath(root: Target, steps: seq<Step>, realm: Realm)
    requires root.Root? && |steps| > 0 && NamedSteps(steps)
    requires WalkJoined(root, steps, realm).Some?
    ensures var n := WalkJoined(root, steps, realm).value;
            PathOf(n) == Some(Contributions(steps)) && n.options == root.options
    decreases |steps|
  {
    var k := |steps| - 1;
    var prefix := steps[..k];
    var step := steps[k];
    var cur := WalkJoined(root, prefix, realm).value;
    assert Access(cur, Name(step.name), realm) == Ok(Node(Child(cur, step.name)));
    assert Contributions(steps) == Contributions(prefix) + Contribution(step);
    assert ParentPath(cur) == Contributions(prefix) && cur.options == root.options by {
      if k == 0 {
        assert prefix == [];
      } else {
        JoinedWalkPath(root, prefix, realm);
        ContributionsStart(prefix);
        Paths.RenderEmpty(Contributions(prefix));
      }
    }
    var n := WalkJoined(root, steps, realm).value;
    match step
    case Read(name) =>
      assert n == JoinedChild(cur, name);
    case Invoke(name, args) =>
      assert n == Element(cur, name, args);
      assert PathOf(n).value == ParentPath(cur) + ([name] + Strings(args)) by {
        if !HasPath(cur) {
          assert [] + ([name] + Strings(args)) == [name] + Strings(args);
        }
      }
  }

  /** A chain whose last step is a call ends on an element. */
  lemma WalkEndingInCall(t: Target, steps: seq<Step>, realm: Realm)
    requires |steps| > 0 && steps[|steps| - 1].Invoke?
    requires Walk(t, steps, realm).Some?
    ensures Walk(t, steps, realm).value.Instance?
  {
  }

  lemma {:induction false} LastReadOfCalls(steps: seq<Step>)
    requires forall i :: 1 <= i < |steps| ==> steps[i].Invoke?
    ensures LastRead(steps) == 0
    decreases |steps|
  {
    if |steps| > 1 {
      LastReadOfCalls(steps[..|steps| - 1]);
    }
  }

  // ---- Requests ----

  /**
    When the base with a `/` appended is a directory URL and the path is made of
    URL segments, the request URL is the base, a `/`, and the path.
  */
  lemma RequestUrlUnderBase(options: Options, base: string, scheme: string, authority: string,
                            dir: seq<string>, path: seq<string>)
    requires Lookup(options, "base") == Str(base)
    requires base + "/" == Uri.DirectoryUrl(scheme, authority, dir)
    requires Uri.SchemeName(scheme) && Uri.AuthorityText(authority) && Uri.AllUrlSegments(dir)
    requires |path| > 0 && Uri.AllUrlSegments(path)
    ensures RequestUrl(options, path) == base + "/" + Paths.Render(path)
  {
    Uri.ResolveUnderDirectory(scheme, authority, dir, path);
  }

  /** The three calling conventions of a verb function. */
  lemma ActionArguments(t: Target, m: Method, data: Value, f: Value)
    requires !t.Root? && f.Fn? && !data.Fn?
    ensures var url := RequestUrl(t.options, PathOf(t).value);
            && Action(t, m, [f]) == Ok(Ended(Request(m, url, Undefined), f))
            && Action(t, m, [data, f]) == Ok(Ended(Request(m, url, data), f))
            && Action(t, m, [data]) == Ok(Returned(Request(m, url, data)))
            && Action(t, m, []) == Ok(Returned(Request(m, url, Undefined)))
  {
  }

  /** A verb on the root proxy has no path to resolve, and the URL resolution throws. */
  lemma ActionOnRootThrows(options: Options, m: Method, args: seq<Value>)
    ensures Action(Root(options), m, args) == Throw(TypeError)
  {
  }

  // ---- Construction ----

  /** Without a caller table the root proxy carries the built-in aliases. */
  lemma ConstructKeepsDefaultAliases(base: string, opts: Value)
    requires "methodAliases" !in OwnProperties(opts)
    ensures Construct(Str(base), opts).Ok?
    ensures Lookup(Construct(Str(base), opts).value.options, "methodAliases") == Obj(MethodAliases)
  {
  }

  /**
    A caller's `methodAliases` replaces the built-in table whole: the root carries the
    caller's table, a name it has no truthy entry for (here `fetch`) is an ordinary
    segment, and a missing table makes the access throw.
  */
  lemma CallerAliasTableReplacesDefaults(base: string, table: Value, realm: Realm)
    requires "fetch" !in realm.objectMembers
    ensures var root := Construct(Str(base), Obj(map["methodAliases" := table])).value;
            && Lookup(root.options, "methodAliases") == table
            && (table.Obj? && !Truthy(Lookup(table.props, "fetch")) ==>
                  Resolve(root, Name("fetch"), realm) == Ok(Segment("fetch")))
            && (table in {Undefined, Null} ==> Resolve(root, Name("fetch"), realm) == Throw(TypeError))
  {
  }

  /** A base that is not a string is refused before any proxy exists. */
  lemma NonStringBaseThrows(base: Value, opts: Value)
    requires !base.Str?
    ensures Construct(base, opts) == Throw(PlainError(BaseMissing))
  {
  }

  /**
    As written, a call without `new` moves `opts` into the base position, so
    `RestProxy("http://api.test")` throws while `new RestProxy("http://api.test")` succeeds.
  */
  lemma PlainCallDropsBase()
    ensures CallAsWritten(false, Str("http://api.test"), Undefined) == Throw(PlainError(BaseMissing))
    ensures CallAsWritten(true, Str("http://api.test"), Undefined).Ok?
  {
  }

  /** Corrected, the two call forms agree for every pair of arguments. */
  lemma CallMatchesNew(base: Value, opts: Value)
    ensures Call(false, base, opts) == Call(true, base, opts)
    ensures Call(true, base, opts) == CallAsWritten(true, base, opts)
  {
  }

  // ---- End to end ----

  /**
    A chain built from a root whose base is a site or directory URL, with every kept
    segment a URL segment: a verb called without arguments returns the request for
    the base, a `/`, and the segments contributed from the last uncalled access on.
  */
  lemma ChainRequest(base: string, opts: Value, scheme: string, authority: string, dir: seq<string>,
                     steps: seq<Step>, m: Method, realm: Realm)
    requires base + "/" == Uri.DirectoryUrl(scheme, authority, dir)
    requires Uri.SchemeName(scheme) && Uri.AuthorityText(authority) && Uri.AllUrlSegments(dir)
    requires |steps| > 0 && NamedSteps(steps)
    requires Uri.AllUrlSegments(Contributions(steps[LastRead(steps)..]))
    requires Walk(Construct(Str(base), opts).value, steps, realm).Some?
    ensures var n := Walk(Construct(Str(base), opts).value, steps, realm).value;
            var kept := Contributions(steps[LastRead(steps)..]);
            Action(n, m, []) == Ok(Returned(Request(m, base + "/" + Paths.Render(kept), Undefined)))
  {
    var root := Construct(Str(base), opts).value;
    var n := Walk(root, steps, realm).value;
    var kept := Contributions(steps[LastRead(steps)..]);
    WalkPath(root, steps, realm);
    ContributionsStart(steps[LastRead(steps)..]);
    RequestUrlUnderBase(n.options, base, scheme, authority, dir, kept);
  }

  const ExampleBaseUrl: string := "http://api.test"

  /** A root proxy carrying the built-in alias table. */
  predicate DefaultRoot(root: Target)
  {
    root.Root? && Lookup(root.options, "methodAliases") == Obj(MethodAliases)
  }

  /** The first call of the example builds the element `users/42`. */
  lemma ExampleFirstStep(root: Target, realm: Realm)
    requires DefaultRoot(root) && "users" !in realm.objectMembers
    ensures Walk(root, [Invoke("users", [Num(42)])], realm) == Some(Instance(["users", "42"], root.options))
  {
    var steps := [Invoke("users", [Num(42)])];
    assert steps[..0] == [];
    assert Walk(root, steps[..0], realm) == Some(root);
    assert Resolve(root, Name("users"), realm) == Ok(Segment("users")) by {
      DefaultResolution(root, "users", realm);
    }
    assert Access(root, Name("users"), realm) == Ok(Node(Child(root, "users")));
    assert Apply(Child(root, "users"), [Num(42)]) == Ok(Element(root, "users", [Num(42)]));
    assert Element(root, "users", [Num(42)]) == Instance(["users", "42"], root.options) by {
      assert !HasPath(root);
      assert Decimal(42) == "42";
      assert Strings([Num(42)]) == ["42"];
    }
  }

  lemma ExampleWalk(root: Target, realm: Realm)
    requires DefaultRoot(root) && "users" !in realm.objectMembers && "posts" !in realm.objectMembers
    ensures Walk(root, ExampleSteps(), realm).Some?
  {
    var steps := ExampleSteps();
    var first := Instance(["users", "42"], root.options);
    assert Walk(root, steps[..1], realm) == Some(first) by {
      assert steps[..1] == [Invoke("users", [Num(42)])];
      ExampleFirstStep(root, realm);
    }
    assert Resolve(first, Name("posts"), realm) == Ok(Segment("posts")) by {
      DefaultResolution(first, "posts", realm);
    }
  }

  lemma ExampleContributions()
    ensures Contributions(ExampleSteps()) == ["users", "42", "posts"]
  {
    var steps := ExampleSteps();
    assert steps[..1] == [Invoke("users", [Num(42)])];
    assert steps[..1][..0] == [];
    assert Decimal(42) == "42";
    assert Strings([Num(42)]) == ["42"];
  }

  /** The steps of `proxy.users(42).posts()`. */
  function ExampleSteps(): (steps: seq<Step>)
    ensures |steps| == 2 && NamedSteps(steps)
    ensures forall i :: 1 <= i < |steps| ==> steps[i].Invoke?
  {
    [Invoke("users", [Num(42)]), Invoke("posts", [])]
  }

  lemma ExampleRequest(realm: Realm)
    requires "users" !in realm.objectMembers && "posts" !in realm.objectMembers
    ensures Walk(Construct(Str(ExampleBaseUrl), Undefined).value, ExampleSteps(), realm).Some?
    ensures var n := Walk(Construct(Str(ExampleBaseUrl), Undefined).value, ExampleSteps(), realm).value;
            Action(n, Get, []) == Ok(Returned(Request(Get, ExampleBaseUrl + "/" + Paths.Render(["users", "42", "posts"]), Undefined)))
  {
    var root := Construct(Str(ExampleBaseUrl), Undefined).value;
    assert DefaultRoot(root) by {
      ConstructKeepsDefaultAliases(ExampleBaseUrl, Undefined);
    }
    ExampleWalk(root, realm);
    ExampleContributions();
    assert ExampleSteps()[LastRead(ExampleSteps())..] == ExampleSteps() by {
      LastReadOfCalls(ExampleSteps());
    }
    ExampleSegments();
    ExampleBase();
    ChainRequest(ExampleBaseUrl, Undefined, "http", "api.test", [], ExampleSteps(), Get, realm);
  }

  lemma ExampleGet(root: Target, realm: Realm)
    requires DefaultRoot(root) && "get" !in realm.objectMembers
    requires Walk(root, ExampleSteps(), realm).Some?
    ensures var n := Walk(root, ExampleSteps(), realm).value;
            Access(n, Name("get"), realm) == Ok(Dispatcher(n, Get))
  {
    var n := Walk(root, ExampleSteps(), realm).value;
    assert n.Instance? && n.options == root.options by {
      WalkPath(root, ExampleSteps(), realm);
      WalkEndingInCall(root, ExampleSteps(), realm);
    }
    assert !Bypassed(n, Name("get"), realm);
    DefaultResolution(n, "get", realm);
  }

  /** `proxy.users(42).posts().get()` on base `http://api.test` requests `http://api.test/users/42/posts`. */
  lemma UsersPostsExample(realm: Realm)
    requires "users" !in realm.objectMembers && "posts" !in realm.objectMembers
    requires "get" !in realm.objectMembers
    ensures var root := Construct(Str(ExampleBaseUrl), Undefined).value;
            && Walk(root, ExampleSteps(), realm).Some?
            && var n := Walk(root, ExampleSteps(), realm).value;
            && Access(n, Name("get"), realm) == Ok(Dispatcher(n, Get))
            && Action(n, Get, []) == Ok(Returned(Request(Get, "http://api.test/users/42/posts", Undefined)))
  {
    var root := Construct(Str(ExampleBaseUrl), Undefined).value;
    assert DefaultRoot(root) by {
      ConstructKeepsDefaultAliases(ExampleBaseUrl, Undefined);
    }
    ExampleRequest(realm);
    ExampleGet(root, realm);
    ExampleUrl();
  }

  /** The steps of `proxy.users(42).posts`, the last access uncalled. */
  function DropSteps(): (steps: seq<Step>)
    ensures |steps| == 2 && NamedSteps(steps)
  {
    [Invoke("users", [Num(42)]), Read("posts")]
  }

  lemma DropWalk(root: Target, realm: Realm)
    requires DefaultRoot(root) && "users" !in realm.objectMembers && "posts" !in realm.objectMembers
    ensures Walk(root, DropSteps(), realm).Some?
    ensures WalkJoined(root, DropSteps(), realm).Some?
  {
    var steps := DropSteps();
    var first := Instance(["users", "42"], root.options);
    assert steps[..1] == [Invoke("users", [Num(42)])];
    assert Walk(root, steps[..1], realm) == Some(first) by {
      ExampleFirstStep(root, realm);
    }
    assert WalkJoined(root, steps[..1], realm) == Some(first) by {
      ExampleFirstStep(root, realm);
      assert steps[..1][..0] == [];
    }
    assert Resolve(first, Name("posts"), realm) == Ok(Segment("posts")) by {
      DefaultResolution(first, "posts", realm);
    }
  }

  /** What the chain contributes in all, and what survives its last uncalled access. */
  lemma DropContributions()
    ensures Contributions(DropSteps()) == ["users", "42", "posts"]
    ensures LastRead(DropSteps()) == 1
    ensures Contributions(DropSteps()[LastRead(DropSteps())..]) == ["posts"]
  {
    var steps := DropSteps();
    assert steps[..1] == [Invoke("users", [Num(42)])];
    assert Contributions(steps[..1]) == ["users", "42"] by {
      ContributionsOne(steps[0]);
      assert Decimal(42) == "42";
      assert Strings([Num(42)]) == ["42"];
    }
    assert steps[1..] == [Read("posts")];
    ContributionsOne(Read("posts"));
  }

  lemma DropUrl()
    ensures Uri.AllUrlSegments(["posts"])
    ensures ExampleBaseUrl + "/" + Paths.Render(["posts"]) == "http://api.test/posts"
  {
    assert Uri.UrlSegment("posts");
  }

  /**
    As written, `proxy.users(42).posts.get()` on base `http://api.test` requests
    `http://api.test/posts`: the uncalled `posts` drops `users/42`.
  */
  lemma UncalledAccessDropsPath(realm: Realm)
    requires "users" !in realm.objectMembers && "posts" !in realm.objectMembers
    ensures var root := Construct(Str(ExampleBaseUrl), Undefined).value;
            && Walk(root, DropSteps(), realm).Some?
            && var n := Walk(root, DropSteps(), realm).value;
            && PathOf(n) == Some(["posts"])
            && Action(n, Get, []) == Ok(Returned(Request(Get, "http://api.test/posts", Undefined)))
  {
    var root := Construct(Str(ExampleBaseUrl), Undefined).value;
    assert DefaultRoot(root) by {
      ConstructKeepsDefaultAliases(ExampleBaseUrl, Undefined);
    }
    DropWalk(root, realm);
    DropContributions();
    DropUrl();
    ExampleBase();
    WalkPath(root, DropSteps(), realm);
    ChainRequest(ExampleBaseUrl, Undefined, "http", "api.test", [], DropSteps(), Get, realm);
  }

  /** Corrected, the same chain keeps `users/42` in front of `posts`. */
  lemma JoinedAccessKeepsPath(realm: Realm)
    requires "users" !in realm.objectMembers && "posts" !in realm.objectMembers
    ensures var root := Construct(Str(ExampleBaseUrl), Undefined).value;
            && WalkJoined(root, DropSteps(), realm).Some?
            && PathOf(WalkJoined(root, DropSteps(), realm).value) == Some(["users", "42", "posts"])
  {
    var root := Construct(Str(ExampleBaseUrl), Undefined).value;
    assert DefaultRoot(root) by {
      ConstructKeepsDefaultAliases(ExampleBaseUrl, Undefined);
    }
    DropWalk(root, realm);
    DropContributions();
    JoinedWalkPath(root, DropSteps(), realm);
  }

  lemma ExampleUrl()
    ensures ExampleBaseUrl + "/" + Paths.Render(["users", "42", "posts"]) == "http://api.test/users/42/posts"
  {
  }

  lemma ExampleSegments()
    ensures Uri.AllUrlSegments(["users", "42", "posts"])
  {
    assert Uri.UrlSegment("users");
    assert Uri.UrlSegment("42");
    assert Uri.UrlSegment("posts");
  }

  lemma ExampleBase()
    ensures ExampleBaseUrl + "/" == Uri.DirectoryUrl("http", "api.test", [])
    ensures Uri.SchemeName("http") && Uri.AuthorityText("api.test")
  {
  }
}
