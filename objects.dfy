/** The property helpers of src/a.js that the evaluator uses for every
    assignment and member read: `getValueOperator` (what a compound
    assignment stores), `isIgnoreObjKey` (the identity ignore list) and
    `setObjKey` / `getObjValue` (the write and read dispatch).  An object is
    a class whose property table the write updates in place; the markers the
    evaluator puts on its own objects (`___Obj`, `___Func`) and the two
    methods that make an object look like `document` are constant flags. */
module Objects {
  import opened Wrappers
  import Express

  // ---------------------------------------------------------------------------
  // Values and compound assignment

  /** The binary operators behind the compound assignments `getValueOperator` knows. */
  datatype BinaryOp = Add | Sub | Mul | Div | Mod | ShiftRight | BitOr | BitAnd

  function OperatorText(b: BinaryOp): string
  {
    match b
    case Add => "+"
    case Sub => "-"
    case Mul => "*"
    case Div => "/"
    case Mod => "%"
    case ShiftRight => ">>"
    case BitOr => "|"
    case BitAnd => "&"
  }

  /** The binary operator of a compound assignment `op=`, for the eight that
      `getValueOperator` handles. */
  function CompoundOp(operator: string): (r: Option<BinaryOp>)
    ensures r.Some? ==> operator == OperatorText(r.value) + "="
    ensures r.None? ==> forall b :: operator != OperatorText(b) + "="
  {
    if operator == "+=" then Some(Add)
    else if operator == "-=" then Some(Sub)
    else if operator == "*=" then Some(Mul)
    else if operator == "/=" then Some(Div)
    else if operator == "%=" then Some(Mod)
    else if operator == ">>=" then Some(ShiftRight)
    else if operator == "|=" then Some(BitOr)
    else if operator == "&=" then Some(BitAnd)
    else None
  }

  /** A JavaScript value as far as the helpers look at it.  Numbers are
      integers here; what an operator does to two values is the host's and is
      passed in as `apply`. */
  datatype Value =
    | Undefined
    | Null
    | Boolean(truth: bool)
    | Number(number: int)
    | Text(text: string)
    | Ref(obj: JsObject)

  const UnsupportedOperator := "not support update operator: "

  /** `getValueOperator`: `=` stores the new value whatever the old one was; a
      known compound operator combines the old value with the new one; any
      other operator is refused with a message naming it. */
  function GetValueOperator(oldValue: Value, value: Value, operator: string,
                            apply: (BinaryOp, Value, Value) -> Value): (r: Result<Value, string>)
    ensures operator == "=" ==> r == Ok(value)
    ensures operator != "=" ==> (r.Ok? <==> CompoundOp(operator).Some?)
    ensures r.Ok? && operator != "=" ==> r.value == apply(CompoundOp(operator).value, oldValue, value)
    ensures r.Err? ==> r.error == UnsupportedOperator + operator
  {
    if operator == "=" then Ok(value)
    else match CompoundOp(operator)
      case Some(b) => Ok(apply(b, oldValue, value))
      case None => Err(UnsupportedOperator + operator)
  }

  /** Of the assignment operators the expression parser accepts (src/express.rs),
      `getValueOperator` handles every one but `<<=`, and no operator the parser
      does not accept. */
  lemma {:induction false} SupportedAssignments(oldValue: Value, value: Value, operator: string,
                                                apply: (BinaryOp, Value, Value) -> Value)
    ensures GetValueOperator(oldValue, value, operator, apply).Ok?
      <==> Express.IsAssignOp(operator) && operator != "<<="
  {
    if |operator| == 2 && Express.IsCompoundHead(operator[0]) && operator[1] == '=' {
      assert operator == [operator[0], '='];
    } else if |operator| == 3 && operator[0] == '>' && operator[1] == '>' && operator[2] == '=' {
      assert operator == ">>=";
    } else if |operator| == 3 && operator[0] == '<' && operator[1] == '<' && operator[2] == '=' {
      assert operator == "<<=";
    } else if |operator| == 1 && operator[0] == '=' {
      assert operator == "=";
    } else {
      assert !Express.IsAssignOp(operator);
      assert CompoundOp(operator).None? by {
        if CompoundOp(operator).Some? {
          assert operator == OperatorText(CompoundOp(operator).value) + "=";
        }
      }
    }
  }

  // ---------------------------------------------------------------------------
  // Objects

  /** An object the evaluator reads and writes.  `scopeObject` is an object
      carrying `___Obj` (the evaluator's own scope objects, with their own get
      and set), `functionObject` one carrying `___Func` (an interpreted
      function), `documentLike` one with both `createElement` and
      `querySelectorAll`.  A key it does not hold reads as `undefined`. */
  class JsObject {
    const scopeObject: bool
    const functionObject: bool
    const documentLike: bool
    var props: map<string, Value>

    constructor(scopeObject: bool, functionObject: bool, documentLike: bool, props: map<string, Value>)
      ensures this.scopeObject == scopeObject && this.functionObject == functionObject
      ensures this.documentLike == documentLike && this.props == props
    {
      this.scopeObject := scopeObject;
      this.functionObject := functionObject;
      this.documentLike := documentLike;
      this.props := props;
    }
  }

  /** `obj[key]` on a property table. */
  function Lookup(props: map<string, Value>, key: string): Value
  {
    if key in props then props[key] else Undefined
  }

  /** How a read or a write ends: with a value, or handed to the scope
      object's own `get` / `set`, which is not part of this model. */
  datatype Outcome = Returned(value: Value) | Delegated

  /** `isIgnoreObjKey`: the object is one of the ignore list's objects (the
      built-in prototypes), compared by identity; the key plays no part. */
  predicate IsIgnoreObjKey(obj: JsObject, key: string, ignoreList: seq<JsObject>)
  {
    obj in ignoreList
  }

  /** Keys that `setObjKey` refuses on a function object. */
  predicate IsInternalKey(key: string)
  {
    |key| >= 3 && key[..3] == "___"
  }

  /** `setObjKey` reaches the store: no delegation, no refusal, not on the ignore list. */
  predicate StoresInto(obj: JsObject, key: string, ignoreList: seq<JsObject>)
  {
    !obj.scopeObject && !(obj.functionObject && IsInternalKey(key)) && !IsIgnoreObjKey(obj, key, ignoreList)
  }

  const NullReceiver := "setObjKey obj is null"
  const InternalKeyOnFunction := "not support Func key"
  const VisibilityKey := "visibilityState"
  /** The host's `TypeError` when a property of `null` or `undefined` is read. */
  const NullRead := "Cannot read properties of null"

  /** `getObjValue`: a missing receiver (`null` or `undefined`) makes the first
      property test throw; a scope object answers for itself; a document-like
      object reports `visible` for `visibilityState` whatever it holds;
      anything else is the property table's entry. */
  function GetObjValue(obj: JsObject?, key: string): (r: Result<Outcome, string>)
    reads obj
    ensures obj == null <==> r == Err(NullRead)
    ensures obj != null ==> (r.Ok? && r.value.Delegated? <==> obj.scopeObject)
    ensures obj != null && !obj.scopeObject && obj.documentLike && key == VisibilityKey ==>
      r == Ok(Returned(Text("visible")))
    ensures obj != null && !obj.scopeObject && !(obj.documentLike && key == VisibilityKey) ==>
      r == Ok(Returned(Lookup(obj.props, key)))
  {
    if obj == null then Err(NullRead)
    else if obj.scopeObject then Ok(Delegated)
    else if obj.documentLike && key == VisibilityKey then Ok(Returned(Text("visible")))
    else Ok(Returned(Lookup(obj.props, key)))
  }

  /** `setObjKey`, with its checks in the source's order: a missing object is
      an error; a scope object handles the write itself; an internal key on a
      function object is refused; an ignored object is left alone and the new
      value returned; otherwise the combined value is stored and returned.
      Only that one key of that one object ever changes, and a read of it
      afterwards gives back what was stored. */
  method SetObjKey(obj: JsObject?, key: string, value: Value, operator: string,
                   ignoreList: seq<JsObject>, apply: (BinaryOp, Value, Value) -> Value)
    returns (r: Result<Outcome, string>)
    modifies obj
    ensures obj == null ==> r == Err(NullReceiver)
    ensures obj != null && obj.scopeObject ==> r == Ok(Delegated)
    ensures obj != null && !obj.scopeObject && obj.functionObject && IsInternalKey(key) ==>
      r == Err(InternalKeyOnFunction)
    ensures (obj != null && !obj.scopeObject && !(obj.functionObject && IsInternalKey(key))
             && IsIgnoreObjKey(obj, key, ignoreList)) ==> r == Ok(Returned(value))
    ensures obj != null && StoresInto(obj, key, ignoreList) ==>
      (var u := GetValueOperator(Lookup(old(obj.props), key), value, operator, apply);
       r == (if u.Ok? then Ok(Returned(u.value)) else Err(u.error))
       && obj.props == (if u.Ok? then old(obj.props)[key := u.value] else old(obj.props)))
    ensures obj != null && !(StoresInto(obj, key, ignoreList) && r.Ok?) ==> obj.props == old(obj.props)
    ensures obj != null ==> forall k :: k != key ==> Lookup(obj.props, k) == Lookup(old(obj.props), k)
    ensures obj != null && StoresInto(obj, key, ignoreList) && r.Ok? && !(obj.documentLike && key == VisibilityKey) ==>
      GetObjValue(obj, key) == r
  {
    if obj == null {
      return Err(NullReceiver);
    }
    if obj.scopeObject {
      return Ok(Delegated);
    }
    if obj.functionObject && IsInternalKey(key) {
      return Err(InternalKeyOnFunction);
    }
    if IsIgnoreObjKey(obj, key, ignoreList) {
      return Ok(Returned(value));
    }
    var u := GetValueOperator(Lookup(obj.props, key), value, operator, apply);
    match u
    case Ok(v) =>
      obj.props := obj.props[key := v];
      r := Ok(Returned(v));
    case Err(e) =>
      r := Err(e);
  }

  /** `setObjKey` called without an operator, which then defaults to `=`: a
      write that reaches the store always succeeds and stores the value itself. */
  method AssignObjKey(obj: JsObject?, key: string, value: Value,
                      ignoreList: seq<JsObject>, apply: (BinaryOp, Value, Value) -> Value)
    returns (r: Result<Outcome, string>)
    modifies obj
    ensures obj == null ==> r == Err(NullReceiver)
    ensures obj != null && obj.scopeObject ==> r == Ok(Delegated)
    ensures obj != null && !obj.scopeObject && obj.functionObject && IsInternalKey(key) ==>
      r == Err(InternalKeyOnFunction)
    ensures (obj != null && !obj.scopeObject && !(obj.functionObject && IsInternalKey(key))
             && IsIgnoreObjKey(obj, key, ignoreList)) ==> r == Ok(Returned(value)) && obj.props == old(obj.props)
    ensures obj != null && StoresInto(obj, key, ignoreList) ==>
      r == Ok(Returned(value)) && obj.props == old(obj.props)[key := value]
  {
    r := SetObjKey(obj, key, value, "=", ignoreList, apply);
  }
}
