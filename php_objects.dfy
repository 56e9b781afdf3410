/**
 * An abstract model of the PHP runtime objects the test-case helpers inspect
 * and change: classes with their method names, objects with a property map,
 * and a log of the method calls made on an object (their bodies are not visible).
 */
module PhpObjects {
  import opened Wrappers
  import opened Ascii

  /** The PHP values the model distinguishes; floats, arrays and resources are not modelled. */
  datatype Value = Null | Bool(b: bool) | Int(i: int) | Str(s: string) | Obj(o: PhpObject)

  /** One call of a method on an object, with its positional arguments. */
  datatype Call = Call(methodName: string, args: seq<Value>)

  /** What reflection tells about a class: its name, whether it is abstract, its methods (inherited ones included) and its parent. */
  datatype PhpClass = PhpClass(name: string, isAbstract: bool, methods: set<string>, parent: Option<string>)

  /** The error PHP raises when `$object->$name(...)` names no method. */
  datatype CallError = UndefinedMethod(className: string, methodName: string)

  /** `ReflectionClass::hasMethod`: method names are compared without regard to ASCII case. */
  predicate HasMethod(methods: set<string>, m: string)
    ensures m in methods ==> HasMethod(methods, m)
  {
    exists n :: n in methods && FoldCase(n) == FoldCase(m)
  }

  lemma HasMethodIgnoresCase(methods: set<string>, m1: string, m2: string)
    requires FoldCase(m1) == FoldCase(m2)
    ensures HasMethod(methods, m1) <==> HasMethod(methods, m2)
  {
  }

  /** Reading `$object->$p`: the property's value, or NULL when the object has no such property. */
  function ReadField(fields: map<string, Value>, p: string): (v: Value)
    ensures p in fields ==> v == fields[p]
    ensures v != Null ==> p in fields && fields[p] == v
  {
    if p in fields then fields[p] else Null
  }

  /** Writing a property and reading it back yields the written value; other properties read as before. */
  lemma ReadAfterWrite(fields: map<string, Value>, p: string, v: Value, q: string)
    ensures ReadField(fields[p := v], q) == if q == p then v else ReadField(fields, q)
  {
  }

  class PhpObject {
    /** The object's runtime class, as `get_class` and reflection report it. */
    const cls: PhpClass
    /** What a method of this object returns when called with given arguments (method bodies are not modelled). */
    const reply: (string, seq<Value>) -> Value
    /** The object's properties, whatever their visibility. */
    var fields: map<string, Value>
    /** Every method call made on this object, oldest first. */
    var calls: seq<Call>

    constructor (cls: PhpClass, reply: (string, seq<Value>) -> Value, fields: map<string, Value>)
      ensures this.cls == cls && this.reply == reply
      ensures this.fields == fields && calls == []
    {
      this.cls := cls;
      this.reply := reply;
      this.fields := fields;
      calls := [];
    }

    /** `$this->$m(...args)`: calls the method if the class has one of that name, else fails. */
    method Invoke(m: string, args: seq<Value>) returns (r: Result<Value, CallError>)
      modifies this
      ensures fields == old(fields)
      ensures HasMethod(cls.methods, m) ==> calls == old(calls) + [Call(m, args)] && r == Success(reply(m, args))
      ensures !HasMethod(cls.methods, m) ==> calls == old(calls) && r == Failure(UndefinedMethod(cls.name, m))
    {
      if HasMethod(cls.methods, m) {
        calls := calls + [Call(m, args)];
        r := Success(reply(m, args));
      } else {
        r := Failure(UndefinedMethod(cls.name, m));
      }
    }
  }
}
