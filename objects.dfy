/** Object.kt: the runtime values. The Kotlin classes declare `var value`
    with a default but no constructor taking it, while the evaluator builds
    them from a literal's value; here each object carries its value. */
module Objects {
  import opened Wrappers
  import opened Ints

  datatype ObjectType = INTEGER_OBJ | BOOLEAN_OBJ | NULL_OBJ

  /** The `type` string each ObjectType is declared with. */
  function TypeName(t: ObjectType): string {
    match t
    case INTEGER_OBJ => "INTEGER"
    case BOOLEAN_OBJ => "BOOLEAN"
    case NULL_OBJ => "NULL"
  }

  datatype Object = IntegerObj(intValue: int32) | BooleanObj(boolValue: bool) | NullObj

  /** The field defaults: `var value: Int = 0` and `var value: Boolean = false`. */
  const DefaultIntegerObj: Object := IntegerObj(0)
  const DefaultBooleanObj: Object := BooleanObj(false)

  /** `type()`. */
  function Type(o: Object): ObjectType {
    match o
    case IntegerObj(_) => INTEGER_OBJ
    case BooleanObj(_) => BOOLEAN_OBJ
    case NullObj => NULL_OBJ
  }

  /** `inspect()`: the value's `toString()`, or "null". */
  function Inspect(o: Object): string {
    match o
    case IntegerObj(v) => IntToString(v as int)
    case BooleanObj(b) => if b then "true" else "false"
    case NullObj => "null"
  }

  /** `type()` names the kind of object and nothing else; the three type
      names are distinct. */
  lemma TypeIsKind(o: Object)
    ensures Type(o) == INTEGER_OBJ <==> o.IntegerObj?
    ensures Type(o) == BOOLEAN_OBJ <==> o.BooleanObj?
    ensures Type(o) == NULL_OBJ <==> o.NullObj?
    ensures TypeName(Type(o)) in {"INTEGER", "BOOLEAN", "NULL"}
  {
  }

  lemma TypeNameInjective(a: ObjectType, b: ObjectType)
    requires TypeName(a) == TypeName(b)
    ensures a == b
  {
  }

  /** The defaults inspect as "0" and "false". */
  lemma DefaultsInspect()
    ensures Inspect(DefaultIntegerObj) == "0" && Inspect(DefaultBooleanObj) == "false"
  {
  }

  /** An integer object's text reads back as its value; a boolean's is "true"
      exactly when it holds true; only Null inspects as "null". */
  lemma InspectReadsBack(o: Object)
    ensures o.IntegerObj? ==> ParseInt(Inspect(o)) == Some(o.intValue as int)
    ensures o.BooleanObj? ==> (Inspect(o) == "true" <==> o.boolValue)
    ensures Inspect(o) == "null" <==> o.NullObj?
  {
    if o.IntegerObj? {
      IntToStringRoundTrip(o.intValue as int);
      IntToStringAlphabet(o.intValue as int);
      assert Inspect(o)[0] != 'n';
    }
  }

  /** Different objects never inspect alike. */
  lemma InspectInjective(a: Object, b: Object)
    requires Inspect(a) == Inspect(b)
    ensures a == b
  {
    if a.IntegerObj? {
      IntToStringAlphabet(a.intValue as int);
    }
    if b.IntegerObj? {
      IntToStringAlphabet(b.intValue as int);
    }
    if a.IntegerObj? && b.IntegerObj? {
      IntToStringInjective(a.intValue as int, b.intValue as int);
    }
  }
}
