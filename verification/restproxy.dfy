/**
  The proxy core of `lib/restproxy.js`: the decisions the `get` trap makes on every
  property access, the path an element accumulates, the request an action forms,
  and the construction of the root proxy.

  JavaScript objects are values here. The options object is shared by reference
  between a node and its children in the source; since nothing in the core mutates
  it, passing the same value on is the same thing.
*/
module RestProxy {
  import opened Results
  import opened Js
  import Paths
  import Uri

  /** The HTTP verbs an access can dispatch (`request[method]`). */
  datatype Method = Get | Put | Post | Delete

  function MethodName(m: Method): string
  {
    match m
    case Get => "get"
    case Put => "put"
    case Post => "post"
    case Delete => "delete"
  }

  /** The options object, as its own enumerable properties. */
  type Options = map<string, Value>

  /** The built-in alias table: alternative names for the four verbs. */
  const MethodAliases: map<string, Value> := map[
    "fetch" := Str("get"),
    "update" := Str("post"),
    "modify" := Str("post"),
    "change" := Str("post"),
    "add" := Str("put"),
    "create" := Str("put"),
    "insert" := Str("put"),
    "remove" := Str("delete")
  ]

  /** The defaults every options object starts from. */
  const DefaultOptions: Options := map["methodAliases" := Obj(MethodAliases)]

  /** The message of the constructor's guard. */
  const BaseMissing: string := "Must define restproxy base API URL"

  /**
    The member names the JavaScript runtime puts on prototype chains: those of
    `Object.prototype` and those of `Function.prototype`. Which names these are is
    left abstract; the model only asks whether a name is among them.
  */
  datatype Realm = Realm(objectMembers: set<string>, functionMembers: set<string>)

  /** The target object behind a proxy. */
  datatype Target =
    /** The `{ options }` object behind the root proxy. */
    | Root(options: Options)
    /** The arrow function built for an uncalled access, with the `path` property set on it. */
    | Accessor(parent: Target, name: string, path: seq<string>, options: Options)
    /** An `Element` built by calling an accessor. */
    | Instance(path: seq<string>, options: Options)

  /** The target's `path` property: absent on the root. */
  function PathOf(t: Target): Option<seq<string>>
  {
    match t
    case Root(_) => None
    case Accessor(_, _, path, _) => Some(path)
    case Instance(path, _) => Some(path)
  }

  /** `if (parent.path)`: the path is present and its string is non-empty. */
  predicate HasPath(t: Target)
  {
    PathOf(t).Some? && Paths.Render(PathOf(t).value) != ""
  }

  /** The target's own property names. */
  function OwnKeys(t: Target): set<string>
  {
    match t
    case Root(_) => {"options"}
    case Accessor(_, _, _, _) => {"length", "name", "path", "options"}
    case Instance(_, _) => {"path", "options"}
  }

  /** `name in target`: own properties, then the prototype chain. */
  predicate InTarget(t: Target, name: string, realm: Realm)
  {
    name in OwnKeys(t)
    || name in realm.objectMembers
    || (t.Accessor? && name in realm.functionMembers)
    || (t.Instance? && name == "constructor")
  }

  /** The names the trap hands back from the target whatever the alias table says. */
  predicate Bypassed(t: Target, key: Key, realm: Realm)
  {
    match key
    case Symbol(_) => true
    case Name(s) => InTarget(t, s, realm) || s in {"inspect", "valueOf", "toString"}
  }

  /** What an access resolves to. */
  datatype Resolution =
    /** The target's own member is returned unchanged. */
    | Passthrough
    /** A function that dispatches the verb. */
    | Verb(verb: Method)
    /** A new path node for the accessed name. */
    | Segment(name: string)

  /** The alias lookup with its fallback: an entry that is falsy or missing yields the name itself. */
  function MethodFor(options: Options, name: string): (r: Result<Value>)
    ensures r.Throw? <==> Lookup(options, "methodAliases") in {Undefined, Null}
    ensures r.Ok? ==> Truthy(r.value) || r.value == Str(name)
    ensures var table := Lookup(options, "methodAliases");
            table.Obj? && Truthy(Lookup(table.props, name)) ==> r == Ok(Lookup(table.props, name))
    ensures var table := Lookup(options, "methodAliases");
            r.Ok? && r.value != Str(name) ==> table.Obj? && r.value == Lookup(table.props, name)
  {
    match Lookup(options, "methodAliases")
    case Undefined => Throw(TypeError)
    case Null => Throw(TypeError)
    case Obj(table) =>
      var v := Lookup(table, name);
      Ok(if Truthy(v) then v else Str(name))
    case _ => Ok(Str(name))
  }

  /** The membership test against the four verb names (strict equality on strings). */
  function MethodOf(v: Value): (r: Option<Method>)
    ensures r.Some? ==> v == Str(MethodName(r.value))
    ensures r.None? ==> forall m: Method :: v != Str(MethodName(m))
  {
    if v == Str("get") then Some(Get)
    else if v == Str("put") then Some(Put)
    else if v == Str("post") then Some(Post)
    else if v == Str("delete") then Some(Delete)
    else None
  }

  /** The `get` trap's decision for `proxy[key]`. */
  function Resolve(t: Target, key: Key, realm: Realm): (r: Result<Resolution>)
    ensures Bypassed(t, key, realm) ==> r == Ok(Passthrough)
    ensures r.Ok? && r.value.Segment? ==> key == Name(r.value.name)
    ensures r.Throw? ==> r.error == TypeError
  {
    if key.Name? && InTarget(t, key.s, realm) then Ok(Passthrough)
    else if key.Symbol? then Ok(Passthrough)
    else if key.s in {"inspect", "valueOf", "toString"} then Ok(Passthrough)
    else
      match MethodFor(t.options, key.s)
      case Throw(e) => Throw(e)
      case Ok(alias) =>
        match MethodOf(alias)
        case Some(m) => Ok(Verb(m))
        case None => Ok(Segment(key.s))
  }

  /** The node an uncalled access produces. */
  function Child(t: Target, name: string): (c: Target)
    ensures c.Accessor? && c.parent == t && c.name == name
    ensures PathOf(c) == Some([name]) && c.options == t.options
  {
    Accessor(t, name, [name], t.options)
  }

  /** The parent's path as `Element` joins under it: empty when the parent has no truthy `path`. */
  function ParentPath(t: Target): seq<string>
  {
    if HasPath(t) then PathOf(t).value else []
  }

  /**
    The uncalled access as evidently intended: the node's `path` joins the parent's
    path and the name, as calling the node does.
  */
  function JoinedChild(t: Target, name: string): (c: Target)
    ensures c.Accessor? && c.parent == t && c.name == name && c.options == t.options
  {
    Accessor(t, name, ParentPath(t) + [name], t.options)
  }

  /** Calling an accessor: the name and the stringified arguments, under the parent's path if it has one. */
  function Element(parent: Target, name: string, params: seq<Value>): (e: Target)
    ensures e.Instance? && e.options == parent.options
    ensures |e.path| >= 1 + |params|
    ensures e.path[|e.path| - |params| - 1] == name
  {
    var own := [name] + Strings(params);
    var path := if HasPath(parent) then PathOf(parent).value + own else own;
    Instance(path, parent.options)
  }

  /** Invoking a proxy: only an accessor is callable. */
  function Apply(t: Target, args: seq<Value>): (r: Result<Target>)
    ensures r.Ok? <==> t.Accessor?
    ensures r.Ok? ==> r.value.Instance? && r.value.options == t.parent.options
  {
    match t
    case Accessor(parent, name, _, _) => Ok(Element(parent, name, args))
    case _ => Throw(TypeError)
  }

  /** What `proxy[key]` evaluates to. */
  datatype Got =
    | Property
    | Dispatcher(target: Target, verb: Method)
    | Node(node: Target)

  function Access(t: Target, key: Key, realm: Realm): (r: Result<Got>)
    ensures r.Throw? <==> Resolve(t, key, realm).Throw?
    ensures Resolve(t, key, realm) == Ok(Passthrough) ==> r == Ok(Property)
    ensures Resolve(t, key, realm).Ok? && Resolve(t, key, realm).value.Verb? ==>
              r == Ok(Dispatcher(t, Resolve(t, key, realm).value.verb))
    ensures r.Ok? && r.value.Node? ==> r.value.node.Accessor? && r.value.node.parent == t
    ensures r.Ok? && r.value.Node? ==> key == Name(r.value.node.name) && PathOf(r.value.node) == Some([r.value.node.name])
    ensures r.Ok? && r.value.Dispatcher? ==> r.value.target == t
  {
    match Resolve(t, key, realm)
    case Throw(e) => Throw(e)
    case Ok(Passthrough) => Ok(Property)
    case Ok(Verb(m)) => Ok(Dispatcher(t, m))
    case Ok(Segment(name)) => Ok(Node(Child(t, name)))
  }

  /** The request handed to the HTTP client: verb, absolute URL and payload. */
  datatype Request = Request(verb: Method, url: string, data: Value)

  /** How an action completes. */
  datatype Completion =
    /** No callback: the request handle is returned. */
    | Returned(request: Request)
    /** A callback: `end(callback)` is invoked and the action returns `undefined`. */
    | Ended(request: Request, callback: Value)
  {
    function Req(): Request
    {
      match this
      case Returned(r) => r
      case Ended(r, _) => r
    }
  }

  /** The request URL: the node's path resolved against the base with a `/` appended. */
  function RequestUrl(options: Options, path: seq<string>): string
  {
    Uri.Resolve(ToString(Lookup(options, "base")) + "/", Paths.Render(path))
  }

  /** The callback an action ends up with: a function in the data position wins. */
  function CallbackOf(args: seq<Value>): Value
  {
    if |args| > 0 && args[0].Fn? then args[0]
    else if |args| > 1 then args[1]
    else Undefined
  }

  /** Calling the function a verb access returns, with the arguments `args`. */
  function Action(t: Target, m: Method, args: seq<Value>): (r: Result<Completion>)
    ensures r.Throw? <==> t.Root?
    ensures r.Throw? ==> r.error == TypeError
    ensures r.Ok? ==> r.value.Req().verb == m
    ensures r.Ok? ==> (r.value.Ended? <==> Truthy(CallbackOf(args)))
    ensures r.Ok? && r.value.Ended? ==> r.value.callback == CallbackOf(args)
    ensures r.Ok? && |args| > 0 && args[0].Fn? ==> r.value.Ended? && r.value.Req().data == Undefined
    ensures r.Ok? && |args| > 0 && !args[0].Fn? ==> r.value.Req().data == args[0]
    ensures r.Ok? && |args| == 0 ==> r.value.Returned? && r.value.Req().data == Undefined
  {
    var data := if |args| > 0 then args[0] else Undefined;
    var callback := if |args| > 1 then args[1] else Undefined;
    var data', callback' := if data.Fn? then Undefined else data, if data.Fn? then data else callback;
    match PathOf(t)
    case None => Throw(TypeError)
    case Some(path) =>
      var request := Request(m, RequestUrl(t.options, path), data');
      if !Truthy(callback') then Ok(Returned(request)) else Ok(Ended(request, callback'))
  }

  /** The own enumerable properties `Object.assign` copies from a source value. */
  function OwnProperties(v: Value): map<string, Value>
  {
    match v
    case Obj(props) => props
    case _ => map[]
  }

  /**
    The options object: defaults, then the caller's options, then `base`. The merge
    is shallow: `base` is the argument, any other key the caller gives takes the
    caller's value, and the remaining keys keep the defaults.
  */
  function MergeOptions(base: Value, opts: Value): (o: Options)
    ensures o.Keys == DefaultOptions.Keys + OwnProperties(opts).Keys + {"base"}
    ensures o["base"] == base
    ensures forall k :: k in OwnProperties(opts) && k != "base" ==> o[k] == OwnProperties(opts)[k]
    ensures forall k :: k in DefaultOptions && k !in OwnProperties(opts) && k != "base" ==> o[k] == DefaultOptions[k]
  {
    DefaultOptions + OwnProperties(opts) + map["base" := base]
  }

  /** `new RestProxy(base, opts)`. */
  function Construct(base: Value, opts: Value): (r: Result<Target>)
    ensures r.Ok? <==> base.Str?
    ensures r.Ok? ==> r.value.Root? && Lookup(r.value.options, "base") == base
    ensures r.Throw? ==> r.error == PlainError(BaseMissing)
  {
    var options := MergeOptions(base, opts);
    if base.Str? then Ok(Root(options)) else Throw(PlainError(BaseMissing))
  }

  /**
    `RestProxy(base, opts)` exactly as written: without a bound `this` it re-invokes
    itself with `new`, passing only `opts`, which lands in the base position.
  */
  function CallAsWritten(hasThis: bool, base: Value, opts: Value): (r: Result<Target>)
    ensures !hasThis ==> (r.Ok? <==> opts.Str?)
    ensures !hasThis && r.Ok? ==> Lookup(r.value.options, "base") == opts
    ensures hasThis ==> (r.Ok? <==> base.Str?)
  {
    if !hasThis then Construct(opts, Undefined) else Construct(base, opts)
  }

  /** `RestProxy(base, opts)` as evidently intended: both call forms construct the same proxy. */
  function Call(hasThis: bool, base: Value, opts: Value): (r: Result<Target>)
    ensures r.Ok? <==> base.Str?
    ensures r.Ok? ==> Lookup(r.value.options, "base") == base
  {
    Construct(base, opts)
  }
}
