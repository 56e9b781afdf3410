# PHPUnit base test case — a Dafny model

This project models the logic of `Morphodo\PHPUnit\TestCase`, a PHPUnit base class for tests. It covers three parts:

- **Fixture loading.** `setFixtureBasePath` stores a base directory. `getFixtureContent` strips every leading `/` from a relative fixture path and puts back exactly one. It then rewrites every `/` to the platform's `DIRECTORY_SEPARATOR` and appends the result to the base path. It returns the content of that file, or throws an exception naming the resolved path.
- **Dependency injection.** `inject($target, $name, $dependency)` rejects a non-object. Otherwise it calls `set<Name>`, else `inject<Name>`, else assigns the property `$name`, else throws. `<Name>` is `$name` with its first character upper-cased.
- **The accessible proxy.** `buildAccessibleProxy` declares a subclass that adds `_call`, `_callRef`, `_set`, `_setRef` and `_get`. The subclass is abstract exactly when the original class is.

The PHP runtime is modelled abstractly (`php_objects.dfy`):
- A class is a value (`PhpClass`): its name, whether it is abstract, its method names and its parent.
- An object is a Dafny `class` (`PhpObject`). It has a property map that methods change in place and a log of the method calls made on it.
- Method bodies are not visible. A call is recorded in the log. Its return value comes from a per-object function `reply`.
- Method names are matched up to ASCII case, as `ReflectionClass::hasMethod` and PHP method calls do. Property names are matched exactly.
- The filesystem is a map from path to content. "Is a regular file" means "is a key".
- The directory separator is a parameter `sep`.

Files:
- `wrappers.dfy`: `Option`, `Result` and `Outcome`.
- `ascii.dfy`: ASCII case mapping and folding.
- `php_objects.dfy`: the object model.
- `fixtures.dfy`: path normalisation and fixture loading, as functions.
- `injection.dfy`: the route `inject` chooses, as functions.
- `accessible_proxy.dfy`: the proxy class declaration and the accessors.
- `test_case.dfy`: the `TestCase` class with its `fixtureBasePath` field.

Two points about how the model reads the code:
- `_callRef` was evidently meant to forward the arguments after the method name. Each `case k` forwards `$arg1` … `$argk`, and `case 0` calls the method with no arguments. That count only makes sense if it excludes `$methodName`. But `func_num_args()` includes it, so the code forwards one extra NULL, and nothing at all when nine arguments are given. The model keeps the code's behaviour; see Findings.
- `setFixtureBasePath` may be called more than once: a later call overwrites the stored base path.

## Model

| member | source | states |
|---|---|---|
| Fixtures.LTrimSlashes | TestCase.php:40 | `ltrim($f, '/')`: the result is a suffix of the input, does not start with `/`, and everything removed was `/` |
| Fixtures.ReplaceSlashes | TestCase.php:41 | `str_replace('/', sep, …)`: same length; each `/` becomes `sep`; every other character is unchanged |
| Fixtures.NormaliseFixture | TestCase.php:40-41 | the normalised suffix starts with the separator; if the separator is not `/`, it contains no `/` |
| Fixtures.NormaliseShape | TestCase.php:40-41 | a fixture made of k slashes then a rest not starting with `/` normalises to the separator followed by the rewritten rest |
| Fixtures.NormaliseIgnoresLeadingSlashes | TestCase.php:40 | any number of leading slashes (`a/b`, `/a/b`, `//a/b`) gives the same suffix |
| Fixtures.NormaliseSingleLeadingSlash | TestCase.php:40-41 | with `/` as the separator, the suffix starts with exactly one `/` |
| Fixtures.NormaliseIdempotent | TestCase.php:40-41 | with `/` as the separator, normalising twice equals normalising once |
| Fixtures.ResolveFixturePath | TestCase.php:42 | the resolved path starts with the base path verbatim, followed by the separator |
| Fixtures.LoadFixture | TestCase.php:42-49 | success iff the resolved path is a file; then its content is returned unchanged; otherwise the error carries the resolved path |
| Fixtures.LoadAfterStore | TestCase.php:42-44 | storing content at the resolved path and then loading the fixture returns that content |
| Fixtures.LoadIgnoresLeadingSlashes | TestCase.php:39-49 | fixtures that differ only in leading slashes give the same load result |
| Fixtures.ResolveNestedFixture | TestCase.php:40-42 | a fixture `dir/file`, after any number of leading slashes, resolves to base, separator, dir, separator, file (base `/fixtures` with `sub/a.txt` gives `/fixtures/sub/a.txt`) |
| Fixtures.EmptyFixtureResolvesToBase | TestCase.php:40-47 | the empty fixture resolves to base plus one separator, and loading it fails unless that is a file |
| PhpUnitTestCase.TestCase.constructor | TestCase.php:15 | the base path is empty by default |
| PhpUnitTestCase.TestCase.SetFixtureBasePath | TestCase.php:28-30 | the base path becomes the argument verbatim |
| PhpUnitTestCase.TestCase.GetFixtureContent | TestCase.php:39-50 | the step-by-step computation returns exactly `LoadFixture` under the stored base path |
| Fixtures.FixtureError.Message | TestCase.php:46 | the not-found message is `Fixture file: "`, the resolved path, then `" not found!` |
| PhpUnitTestCase.CannotInjectMessage | TestCase.php:161 | the RuntimeException message contains the property name and ends with the class name |
| PhpUnitTestCase.TestCase.Inject | TestCase.php:143-163 | a non-object gives InvalidArgument and nothing changes. Otherwise exactly one action follows `ResolveInjection`: one logged call `(method, [dependency])`, with no property written by `inject` itself (what the setter or injector then does is not modelled); or property `name` set to the dependency with no call; or CannotInject naming field and class, with the target unchanged |
| Injection.Capitalize | TestCase.php:149 | only the first character changes, to its ASCII upper case; the name folds to the same lower-case form |
| Injection.ResolveInjection | TestCase.php:150-162 | the if-chain returns a route for `name` that is available, and returns none iff none of setter, injector and property is available |
| Injection.FirstAvailable | TestCase.php:150-162 | reference definition: None iff no route in the list is available; otherwise an available route with no available route before it |
| Injection.ResolveIsFirstAvailable | TestCase.php:150-162 | `inject`'s if-chain equals the first available of setter, injector, property |
| Injection.SetterTakesPrecedence | TestCase.php:150-152 | when `set<Name>` exists it is chosen, whatever else exists |
| Injection.InjectorWithoutSetter | TestCase.php:153-155 | `inject<Name>` is chosen iff it exists and `set<Name>` does not |
| Injection.PropertyAsLastResort | TestCase.php:156-159 | the property is assigned iff it exists and neither method does |
| Injection.MethodRoutesIgnoreCapitalization | TestCase.php:149-153 | under case-insensitive method lookup, `set<Name>` and `inject<Name>` are found iff `set<name>` and `inject<name>` are |
| PhpObjects.HasMethodIgnoresCase | TestCase.php:150 | method lookup gives the same answer for names equal up to ASCII case |
| PhpObjects.PhpObject.Invoke | TestCase.php:152 | `$target->$m(...)` logs one call and returns the method's reply if the class has `m`; otherwise it fails and logs nothing. The call writes no property: method bodies are not modelled |
| PhpObjects.HasMethod | TestCase.php:150-153 | `hasMethod` is true for every declared name (and, with `HasMethodIgnoresCase`, for every name equal to one up to ASCII case) |
| PhpObjects.ReadField | TestCase.php:123 | reading an existing property gives its value; a non-NULL read means the property exists and holds that value |
| Ascii.Upper | TestCase.php:149 | `strtoupper` on one character: the result is never a lower-case ASCII letter, only lower-case letters change, and the result folds to the same lower case |
| PhpObjects.ReadAfterWrite | TestCase.php:116-124 | reading a property after writing it gives the written value; other properties read as before |
| AccessibleProxy.BuildAccessibleProxy | TestCase.php:93-98 | the proxy has all accessor methods, its parent is the original class, and it keeps the original's other methods |
| AccessibleProxy.ProxyAbstractIffOriginal | TestCase.php:96 | the proxy is abstract iff the original class is |
| AccessibleProxy.ProxyKeepsMethods | TestCase.php:98 | every method of the original is a method of the proxy |
| AccessibleProxy.ProxyNamesDistinct | TestCase.php:94 | different md5 tokens (32 lower-case hex digits) give proxy class names that differ even compared without regard to case, as PHP compares class names |
| AccessibleProxy.ArgumentSlots | TestCase.php:102 | the nine parameters `$arg1` … `$arg9` hold the supplied arguments in order, and NULL (their default) where none was supplied |
| AccessibleProxy.CallRefForwarded | TestCase.php:103-114 | the switch as written: a call happens iff at most 8 arguments follow the name, and it receives exactly those arguments followed by one NULL |
| AccessibleProxy.CallRefOffByOne | TestCase.php:102-115 | one argument is forwarded as two, and nine are not forwarded at all, unlike the intended forwarding |
| AccessibleProxy.IntendedForwarded | TestCase.php:102-115 | the corrected switch (on the count after the name) forwards exactly the supplied arguments when there are at most nine, and makes no call otherwise |
| AccessibleProxy.CallRef | TestCase.php:102-115 | as written: calls the method with `CallRefForwarded(args)` (one logged call) or returns NULL without a call; `_callRef` itself writes no property (the callee's own effects are not modelled) |
| AccessibleProxy.CallRefCorrected | TestCase.php:102-115 | corrected: calls the method with exactly the supplied arguments (at most nine) |
| AccessibleProxy.Set | TestCase.php:116-118 | `_set` writes property `p`; no other property and no call changes |
| AccessibleProxy.SetRef | TestCase.php:119-121 | `_setRef` stores a copy of the value; same effect as `_set` |
| AccessibleProxy.Get | TestCase.php:122-124 | `_get` returns the property's current value, or NULL when it is absent |
| AccessibleProxy.SetThenGet | TestCase.php:116-124 | `_set(p, v)` then `_get(p)` returns `v`; the property map becomes exactly the old one with `p` set to `v`, and no call is logged |

## Left out

- `_call` (TestCase.php:99-101): plain variadic dispatch through `call_user_func_array`. It forwards every argument after the name and is `PhpObject.Invoke` with those arguments. The exception is the error raised when the method is missing: `call_user_func_array` does not raise an undefined-method error. It warns that the callback is invalid and returns NULL, or throws a TypeError in PHP 8.
- `getAccessibleMock`, `getAccessibleMockForAbstractClass`, `getMutedMock` (TestCase.php:66-84, 172-174): they only pass arguments on to PHPUnit's `getMock` and `getMockForAbstractClass`, whose behaviour is not part of this model.
- Class synthesis through `eval`, and the random name `md5(uniqid(mt_rand(), TRUE))`. The declared class is a `PhpClass` value, and the random part of the name is a parameter `token`. Only "different md5 tokens give names that differ up to case" is proved. The `eval` fails fatally when the original is a `final` class or an interface, because neither can be extended. `BuildAccessibleProxy` does not model that failure: it returns a proxy for every class.
- `ReflectionClass`/`ReflectionObject` loading and the "class not found" error: the object model replaces reflection.
- Visibility. Private members of a parent class are not accessible from the generated subclass. There, `_set` creates a new dynamic property and a call fails. Likewise `inject` finds a protected setter through reflection, but calling it from the test case fails. The model treats every property and method as accessible.
- PHP notices: reading an undefined property with `_get` gives NULL and a notice. The notice (which PHPUnit may turn into an exception) is not modelled.
- `__call` and `__set` magic methods, and whatever the called methods do besides returning a value. A call is only recorded.
- By-reference write-back in `_callRef`. Arguments are values, so a callee's changes to its arguments are not modelled.
- PhpUnitTestCase.TestCase.Inject: requires a non-empty `name` when the target is an object. A non-object is rejected before the name is read. For an object target with an empty name, `$name[0]` (TestCase.php:149) reads past the end of the string. PHP reports that as a notice, which PHPUnit turns into an exception by default.
- `strtoupper` is modelled for ASCII letters only. Locale-dependent upper-casing is not modelled.
- `is_file` and `file_get_contents` become a map lookup. Directories, permissions and read failures are not modelled.
- PHP floats, arrays and resources are not among the modelled values.

## Findings

| source | as written | input that shows it | evidently intended | confidence | as-written member | corrected member |
|---|---|---|---|---|---|---|
| TestCase.php:102-115 | `switch (func_num_args())`, whose count includes `$methodName`; `case 0` can never match | `_callRef('m', $x)` calls `m($x, NULL)`, so a default for m's second parameter is replaced by NULL; `_callRef` with nine arguments calls nothing and returns NULL | forward exactly the arguments after the name, up to nine (switch on `func_num_args() - 1`) | high, not executed | AccessibleProxy.CallRefOffByOne | AccessibleProxy.IntendedForwarded |
