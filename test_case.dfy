/**
 * The test-case base class: its fixture base path, the fixture loader and
 * dependency injection into a test subject.
 */
module PhpUnitTestCase {
  import opened Wrappers
  import opened PhpObjects
  import opened Fixtures
  import opened Injection

  /** The two exceptions `inject` throws. */
  datatype InjectError =
    | InvalidArgument(message: string)   // InvalidArgumentException: the target is not an object
    | CannotInject(message: string)      // RuntimeException: no setter, injector or property

  const WrongTargetMessage: string := "Wrong type for argument $target, must be object."

  function CannotInjectMessage(name: string, className: string): (m: string)
    ensures |m| == |name| + |className| + 38
    ensures m[..16] == "Could not inject" && m[17..17 + |name|] == name
    ensures m[|m| - |className|..] == className
  {
    "Could not inject " + name + " into object of type " + className
  }

  class TestCase {
    /** The directory fixtures are resolved against; empty until set. */
    var fixtureBasePath: string

    constructor ()
      ensures fixtureBasePath == ""
    {
      fixtureBasePath := "";
    }

    /** Stores the base path verbatim. */
    method SetFixtureBasePath(path: string)
      modifies this
      ensures fixtureBasePath == path
    {
      fixtureBasePath := path;
    }

    /**
     * The content of the fixture under the base path, read from `fs`; `sep`
     * is the platform's directory separator.
     */
    method GetFixtureContent(fs: FileSystem, fixture: string, sep: char) returns (r: Result<string, FixtureError>)
      ensures r == LoadFixture(fs, fixtureBasePath, fixture, sep)
    {
      var suffix := "/" + LTrimSlashes(fixture);
      suffix := ReplaceSlashes(suffix, sep);
      var path := fixtureBasePath + suffix;
      if path in fs {
        r := Success(fs[path]);
      } else {
        r := Failure(FixtureNotFound(path));
      }
    }

    /**
     * Hands `dependency` to `target` under `name`: through `set<Name>`, else
     * `inject<Name>`, else by assigning the property `name`. A call is
     * recorded in the target's call log; only the property branch writes a
     * property.
     */
    method Inject(target: Value, name: string, dependency: Value) returns (r: Outcome<InjectError>)
      requires target.Obj? ==> |name| > 0
      modifies if target.Obj? then {target.o} else {}
      ensures !target.Obj? ==> r == Fail(InvalidArgument(WrongTargetMessage))
      ensures target.Obj? ==>
        var o := target.o;
        match ResolveInjection(o.cls.methods, old(o.fields).Keys, name)
        case None =>
          r == Fail(CannotInject(CannotInjectMessage(name, o.cls.name)))
          && o.fields == old(o.fields) && o.calls == old(o.calls)
        case Some(AssignProperty(p)) =>
          r == Pass && o.fields == old(o.fields)[p := dependency] && o.calls == old(o.calls)
        case Some(route) =>
          r == Pass && o.fields == old(o.fields) && o.calls == old(o.calls) + [Call(route.methodName, [dependency])]
    {
      if !target.Obj? {
        return Fail(InvalidArgument(WrongTargetMessage));
      }
      var o := target.o;
      var route := ResolveInjection(o.cls.methods, o.fields.Keys, name);
      match route {
        case Some(CallSetter(m)) =>
          var _ := o.Invoke(m, [dependency]);
          r := Pass;
        case Some(CallInjector(m)) =>
          var _ := o.Invoke(m, [dependency]);
          r := Pass;
        case Some(AssignProperty(p)) =>
          o.fields := o.fields[p := dependency];
          r := Pass;
        case None =>
          r := Fail(CannotInject(CannotInjectMessage(name, o.cls.name)));
      }
    }
  }
}
