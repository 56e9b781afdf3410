/**
 * How `inject` chooses what to do with a dependency: a setter `set<Name>`,
 * else an injector `inject<Name>`, else direct assignment of the property
 * `name`, else failure. `<Name>` is `name` with its first character
 * upper-cased. Method names are matched without regard to ASCII case,
 * property names exactly.
 */
module Injection {
  import opened Wrappers
  import opened Ascii
  import opened PhpObjects

  /** `strtoupper($name[0]) . substr($name, 1)`: only the first character is upper-cased, which lookup up to case cannot tell apart. */
  function Capitalize(name: string): (r: string)
    requires |name| > 0
    ensures |r| == |name| && r[1..] == name[1..]
    ensures r[0] == Upper(name[0])
    ensures FoldCase(r) == FoldCase(name)
  {
    var r := [Upper(name[0])] + name[1..];
    assert forall i :: 0 <= i < |r| ==> FoldCase(r)[i] == FoldCase(name)[i];
    r
  }

  function SetterName(name: string): string
    requires |name| > 0
  {
    "set" + Capitalize(name)
  }

  function InjectorName(name: string): string
    requires |name| > 0
  {
    "inject" + Capitalize(name)
  }

  /** The three ways to hand a dependency to an object. */
  datatype Route = CallSetter(methodName: string) | CallInjector(methodName: string) | AssignProperty(property: string)

  /** Whether the target's class offers a route. */
  predicate Available(methods: set<string>, properties: set<string>, route: Route)
  {
    match route
    case CallSetter(m) => HasMethod(methods, m)
    case CallInjector(m) => HasMethod(methods, m)
    case AssignProperty(p) => p in properties
  }

  /** The routes for `name`, in the order they are tried. */
  function Routes(name: string): seq<Route>
    requires |name| > 0
  {
    [CallSetter(SetterName(name)), CallInjector(InjectorName(name)), AssignProperty(name)]
  }

  /** Reference definition: the first available route of an ordered list of strategies. */
  function FirstAvailable(methods: set<string>, properties: set<string>, routes: seq<Route>): (r: Option<Route>)
    ensures r.None? <==> forall i :: 0 <= i < |routes| ==> !Available(methods, properties, routes[i])
    ensures r.Some? ==> Available(methods, properties, r.value)
    ensures r.Some? ==> (exists i :: 0 <= i < |routes| && routes[i] == r.value
                           && forall j :: 0 <= j < i ==> !Available(methods, properties, routes[j]))
  {
    if routes == [] then None
    else if Available(methods, properties, routes[0]) then Some(routes[0])
    else
      var r := FirstAvailable(methods, properties, routes[1..]);
      assert r.Some? ==> (exists i :: 1 <= i < |routes| && routes[i] == r.value
                            && forall j :: 0 <= j < i ==> !Available(methods, properties, routes[j])) by {
        if r.Some? {
          var i :| 0 <= i < |routes[1..]| && routes[1..][i] == r.value
            && forall j :: 0 <= j < i ==> !Available(methods, properties, routes[1..][j]);
          assert routes[i + 1] == r.value;
        }
      }
      r
  }

  /**
   * The decision `inject` makes for a target with the given methods and
   * properties: an available route for `name`, or None when none is.
   */
  function ResolveInjection(methods: set<string>, properties: set<string>, name: string): (r: Option<Route>)
    requires |name| > 0
    ensures r.Some? ==> r.value in Routes(name) && Available(methods, properties, r.value)
    ensures r.None? <==> forall route :: route in Routes(name) ==> !Available(methods, properties, route)
  {
    if HasMethod(methods, SetterName(name)) then Some(CallSetter(SetterName(name)))
    else if HasMethod(methods, InjectorName(name)) then Some(CallInjector(InjectorName(name)))
    else if name in properties then Some(AssignProperty(name))
    else None
  }

  /** `inject` takes the first available of setter, injector and property, and fails only when none is available. */
  lemma ResolveIsFirstAvailable(methods: set<string>, properties: set<string>, name: string)
    requires |name| > 0
    ensures ResolveInjection(methods, properties, name) == FirstAvailable(methods, properties, Routes(name))
  {
    var rs := Routes(name);
    assert rs[1..] == [rs[1], rs[2]];
    assert rs[1..][1..] == [rs[2]];
    assert rs[1..][1..][1..] == [];
  }

  /** A setter wins over an injector and a property of the same name. */
  lemma SetterTakesPrecedence(methods: set<string>, properties: set<string>, name: string)
    requires |name| > 0 && HasMethod(methods, SetterName(name))
    ensures ResolveInjection(methods, properties, name) == Some(CallSetter(SetterName(name)))
  {
  }

  /** An injector is used exactly when there is one and no setter. */
  lemma InjectorWithoutSetter(methods: set<string>, properties: set<string>, name: string)
    requires |name| > 0
    ensures ResolveInjection(methods, properties, name) == Some(CallInjector(InjectorName(name)))
      <==> !HasMethod(methods, SetterName(name)) && HasMethod(methods, InjectorName(name))
  {
  }

  /** The property is assigned exactly when it exists and neither setter nor injector does. */
  lemma PropertyAsLastResort(methods: set<string>, properties: set<string>, name: string)
    requires |name| > 0
    ensures ResolveInjection(methods, properties, name) == Some(AssignProperty(name))
      <==> !HasMethod(methods, SetterName(name)) && !HasMethod(methods, InjectorName(name)) && name in properties
  {
  }

  /**
   * Because method lookup ignores case, upper-casing the first character
   * does not change which setter or injector is found: `setfoo` and
   * `setFoo` name the same method.
   */
  lemma MethodRoutesIgnoreCapitalization(methods: set<string>, name: string)
    requires |name| > 0
    ensures HasMethod(methods, SetterName(name)) <==> HasMethod(methods, "set" + name)
    ensures HasMethod(methods, InjectorName(name)) <==> HasMethod(methods, "inject" + name)
  {
    FoldCaseAppend("set", Capitalize(name));
    FoldCaseAppend("set", name);
    FoldCaseAppend("inject", Capitalize(name));
    FoldCaseAppend("inject", name);
    HasMethodIgnoresCase(methods, SetterName(name), "set" + name);
    HasMethodIgnoresCase(methods, InjectorName(name), "inject" + name);
  }
}
