/**
 * The accessible proxy: a generated subclass of a class that adds public
 * accessors for calling any method and reading or writing any property.
 * The class declaration is modelled as a value; the accessors as methods on
 * an instance of the proxy class.
 */
module AccessibleProxy {
  import opened Wrappers
  import opened PhpObjects
  import opened Ascii

  const ProxyNamePrefix: string := "AccessibleTestProxy"

  /** The accessor methods every proxy class adds to its parent. */
  const AccessorMethods: set<string> := {"_call", "_callRef", "_set", "_setRef", "_get"}

  predicate HasAccessors(c: PhpClass)
  {
    AccessorMethods <= c.methods
  }

  /**
   * The class declared for `original`; `token` stands for the random
   * identifier in its name. It is abstract exactly when `original` is.
   */
  function BuildAccessibleProxy(original: PhpClass, token: string): (proxy: PhpClass)
    ensures HasAccessors(proxy) && proxy.parent == Some(original.name)
    ensures proxy.methods - AccessorMethods == original.methods - AccessorMethods
  {
    PhpClass(ProxyNamePrefix + token, original.isAbstract, original.methods + AccessorMethods, Some(original.name))
  }

  /** The proxy can be instantiated exactly when the original class can. */
  lemma ProxyAbstractIffOriginal(original: PhpClass, token: string)
    ensures BuildAccessibleProxy(original, token).isAbstract <==> original.isAbstract
  {
  }

  /** Every method of the original class is a method of the proxy. */
  lemma ProxyKeepsMethods(original: PhpClass, token: string, m: string)
    requires HasMethod(original.methods, m)
    ensures HasMethod(BuildAccessibleProxy(original, token).methods, m)
  {
  }

  /** The tokens `md5()` produces: 32 lower-case hexadecimal digits. */
  predicate IsMd5Hex(token: string)
  {
    |token| == 32 && forall i :: 0 <= i < |token| ==> token[i] in "0123456789abcdef"
  }

  /**
   * PHP compares class names without regard to ASCII case. Proxies built
   * with different md5 tokens have names that differ even then, so a second
   * build never redeclares a class.
   */
  lemma ProxyNamesDistinct(c1: PhpClass, t1: string, c2: PhpClass, t2: string)
    requires IsMd5Hex(t1) && IsMd5Hex(t2) && t1 != t2
    ensures FoldCase(BuildAccessibleProxy(c1, t1).name) != FoldCase(BuildAccessibleProxy(c2, t2).name)
  {
    var p := FoldCase(ProxyNamePrefix);
    assert FoldCase(ProxyNamePrefix + t1) == p + t1 by {
      FoldCaseAppend(ProxyNamePrefix, t1);
      Md5HexIsFolded(t1);
    }
    assert FoldCase(ProxyNamePrefix + t2) == p + t2 by {
      FoldCaseAppend(ProxyNamePrefix, t2);
      Md5HexIsFolded(t2);
    }
    assert (p + t1)[|p|..] == t1 && (p + t2)[|p|..] == t2;
  }

  /** An md5 token has no upper-case letter, so folding leaves it as it is. */
  lemma Md5HexIsFolded(token: string)
    requires IsMd5Hex(token)
    ensures FoldCase(token) == token
  {
    assert forall i :: 0 <= i < |token| ==> FoldCase(token)[i] == token[i];
  }

  /** The nine by-reference parameters `$arg1` ... `$arg9`: the supplied arguments, NULL where none was supplied. */
  function ArgumentSlots(args: seq<Value>): (slots: seq<Value>)
    ensures |slots| == 9
    ensures |args| <= 9 ==> slots[..|args|] == args && forall i :: |args| <= i < 9 ==> slots[i] == Null
    ensures |args| > 9 ==> slots == args[..9]
  {
    seq(9, i requires 0 <= i < 9 => if i < |args| then args[i] else Null)
  }

  /**
   * The arguments `_callRef` forwards, as written: it switches on
   * `func_num_args()`, which counts `$methodName` too, and forwards that many
   * parameters. So up to eight arguments reach the method followed by one
   * NULL, and with nine or more no case matches and nothing is called.
   */
  function CallRefForwarded(args: seq<Value>): (r: Option<seq<Value>>)
    ensures r.Some? <==> |args| <= 8
    ensures r.Some? ==> r.value == args + [Null]
  {
    var numArgs := |args| + 1;
    if numArgs <= 9 then
      var slots := ArgumentSlots(args);
      assert slots[..numArgs] == slots[..|args|] + [slots[|args|]];
      Some(slots[..numArgs])
    else None
  }

  /**
   * The forwarding evidently intended, switching on the number of arguments
   * after the name: exactly the supplied arguments, up to nine.
   */
  function IntendedForwarded(args: seq<Value>): (r: Option<seq<Value>>)
    ensures r == if |args| <= 9 then Some(args) else None
  {
    var numArgs := |args|;
    if numArgs <= 9 then Some(ArgumentSlots(args)[..numArgs]) else None
  }

  /** One argument reaches the method with a NULL after it; nine reach it not at all. */
  lemma CallRefOffByOne(x: Value, nine: seq<Value>)
    requires |nine| == 9
    ensures CallRefForwarded([x]) == Some([x, Null]) != IntendedForwarded([x])
    ensures CallRefForwarded(nine) == None != IntendedForwarded(nine)
  {
    assert [x] + [Null] == [x, Null];
    assert |[x, Null]| != |[x]|;
  }

  /** `_set`: assigns the property, whatever its visibility; nothing else changes. */
  method Set(proxy: PhpObject, p: string, v: Value)
    requires HasAccessors(proxy.cls)
    modifies proxy
    ensures proxy.fields == old(proxy.fields)[p := v] && proxy.calls == old(proxy.calls)
  {
    proxy.fields := proxy.fields[p := v];
  }

  /** `_setRef`: takes the value by reference but stores a copy, so it acts as `_set`. */
  method SetRef(proxy: PhpObject, p: string, v: Value)
    requires HasAccessors(proxy.cls)
    modifies proxy
    ensures proxy.fields == old(proxy.fields)[p := v] && proxy.calls == old(proxy.calls)
  {
    Set(proxy, p, v);
  }

  /** `_get`: the property's value, NULL when there is none. */
  method Get(proxy: PhpObject, p: string) returns (v: Value)
    requires HasAccessors(proxy.cls)
    ensures v == ReadField(proxy.fields, p)
  {
    v := if p in proxy.fields then proxy.fields[p] else Null;
  }

  /** `_set` followed by `_get` of the same property returns the value set. */
  method SetThenGet(proxy: PhpObject, p: string, v: Value) returns (got: Value)
    requires HasAccessors(proxy.cls)
    modifies proxy
    ensures got == v
    ensures proxy.fields == old(proxy.fields)[p := v] && proxy.calls == old(proxy.calls)
  {
    Set(proxy, p, v);
    got := Get(proxy, p);
  }

  /** `_callRef` as written: calls the method with the arguments `CallRefForwarded` gives, or returns NULL without a call. */
  method CallRef(proxy: PhpObject, m: string, args: seq<Value>) returns (r: Result<Value, CallError>)
    requires HasAccessors(proxy.cls)
    modifies proxy
    ensures proxy.fields == old(proxy.fields)
    ensures match CallRefForwarded(args)
      case None => r == Success(Null) && proxy.calls == old(proxy.calls)
      case Some(forwarded) =>
        if HasMethod(proxy.cls.methods, m)
        then proxy.calls == old(proxy.calls) + [Call(m, forwarded)] && r == Success(proxy.reply(m, forwarded))
        else proxy.calls == old(proxy.calls) && r == Failure(UndefinedMethod(proxy.cls.name, m))
  {
    var forwarded := CallRefForwarded(args);
    if forwarded.Some? {
      r := proxy.Invoke(m, forwarded.value);
    } else {
      r := Success(Null);
    }
  }

  /** `_callRef` as evidently intended: forwards exactly the supplied arguments, up to nine. */
  method CallRefCorrected(proxy: PhpObject, m: string, args: seq<Value>) returns (r: Result<Value, CallError>)
    requires HasAccessors(proxy.cls)
    modifies proxy
    ensures proxy.fields == old(proxy.fields)
    ensures |args| > 9 ==> r == Success(Null) && proxy.calls == old(proxy.calls)
    ensures |args| <= 9 && HasMethod(proxy.cls.methods, m) ==>
      proxy.calls == old(proxy.calls) + [Call(m, args)] && r == Success(proxy.reply(m, args))
    ensures |args| <= 9 && !HasMethod(proxy.cls.methods, m) ==>
      proxy.calls == old(proxy.calls) && r == Failure(UndefinedMethod(proxy.cls.name, m))
  {
    var forwarded := IntendedForwarded(args);
    if forwarded.Some? {
      r := proxy.Invoke(m, forwarded.value);
    } else {
      r := Success(Null);
    }
  }
}
