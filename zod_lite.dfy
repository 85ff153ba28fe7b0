/**
 * zod-lite: a small schema-validation library.  A schema is a value of the
 * datatype `Schema`; `Run` is the parser that `makeSchema` wraps (it may add
 * issues to the parse context it is given) and `SafeParse` is the `safeParse`
 * every schema exposes (it starts a fresh context with an empty path).
 *
 * `STuple` stands for `z.literalArray` and `SUnknown` for `z.unknown`, which
 * the event layer uses but which zod-lite.ts does not define; both are modelled
 * here as described in README.md.
 */
module ZodLite {
  import opened Wrappers
  import opened Values

  datatype Literal = LStr(s: string) | LNum(n: real) | LBool(b: bool) | LNull

  function LiteralValue(l: Literal): Value {
    match l
    case LStr(s) => Str(s)
    case LNum(n) => Num(n)
    case LBool(b) => Bool(b)
    case LNull => Null
  }

  datatype Schema =
    | SString
    | SNumber
    | SBoolean
    | SLiteral(lit: Literal)
    | SArray(item: Schema)
    | SObject(shape: seq<(string, Schema)>)
    | SUnion(options: seq<Schema>)
    | SOptional(inner: Schema)
    | SNullable(inner: Schema)
    | STuple(elems: seq<Schema>)
    | SUnknown

  datatype PathSegment = Key(key: string) | Index(index: nat)

  datatype Issue = Issue(path: seq<PathSegment>, message: string, expected: string, received: string)

  /** What a parser returns and the issues it adds to its context. */
  datatype Outcome = Outcome(value: Option<Value>, issues: seq<Issue>)

  datatype SafeParseReturn = Success(data: Value) | Failure(issues: seq<Issue>)

  /** A parser's failure that records one issue at the current path. */
  function Reject(path: seq<PathSegment>, message: string, expected: string, input: Value): Outcome {
    Outcome(None, [Issue(path, message, expected, TypeOf(input))])
  }

  function Accept(v: Value): Outcome {
    Outcome(Some(v), [])
  }

  /** The value a field of an object input holds, undefined when absent. */
  function FieldOf(fields: map<string, Value>, key: string): Value {
    if key in fields then fields[key] else Undefined
  }

  /** The parser of schema `s` run on `input` in a context whose path is `path`. */
  function Run(s: Schema, input: Value, path: seq<PathSegment>): Outcome
    decreases s, 2, 0
  {
    match s
    case SString =>
      if !input.Str? then Reject(path, "Expected string", "string", input) else Accept(input)
    case SNumber =>
      if !input.Num? then Reject(path, "Expected number", "number", input) else Accept(input)
    case SBoolean =>
      if !input.Bool? then Reject(path, "Expected boolean", "boolean", input) else Accept(input)
    case SLiteral(l) =>
      if input != LiteralValue(l) then Reject(path, "Expected literal value", "literal", input)
      else Accept(LiteralValue(l))
    case SArray(_) =>
      if !input.Arr? then Reject(path, "Expected array", "array", input)
      else Outcome(ArrayFrom(s, input.items, 0), [])
    case SObject(_) =>
      if !input.Obj? then Reject(path, "Expected object", "object", input)
      else Outcome(ObjectFrom(s, input.fields, 0), [])
    case SUnion(_) =>
      var r := UnionFrom(s, input, 0);
      if r.None? then Reject(path, "No union variant matched", "union", input) else Accept(r.value)
    case SOptional(inner) =>
      if input == Undefined then Accept(Undefined) else Run(inner, input, path)
    case SNullable(inner) =>
      if input == Null then Accept(Null) else Run(inner, input, path)
    case STuple(_) =>
      if !input.Arr? then Reject(path, "Expected array", "array", input)
      else Outcome(TupleFrom(s, input.items, 0), [])
    case SUnknown =>
      Accept(input)
  }

  /** `safeParse`: a fresh context, then success with the value or failure with the issues. */
  function SafeParse(s: Schema, input: Value): SafeParseReturn
    decreases s, 3, 0
  {
    var o := Run(s, input, []);
    if o.value.Some? then Success(o.value.value) else Failure(o.issues)
  }

  /** The loop of `arraySchema` from index `i` on: the parsed rest, or None at the first failure. */
  function ArrayFrom(s: Schema, xs: seq<Value>, i: nat): Option<Value>
    requires s.SArray?
    decreases s, 1, |xs| - i
  {
    if i >= |xs| then Some(Arr([]))
    else match SafeParse(s.item, xs[i])
      case Failure(_) => None
      case Success(v) =>
        match ArrayFrom(s, xs, i + 1)
        case None => None
        case Some(rest) => Some(Arr([v] + rest.items))
  }

  /** The loop of `objectSchema` over the shape's keys from position `i` on. */
  function ObjectFrom(s: Schema, fields: map<string, Value>, i: nat): Option<Value>
    requires s.SObject?
    decreases s, 1, |s.shape| - i
  {
    if i >= |s.shape| then Some(Obj(map[]))
    else match SafeParse(s.shape[i].1, FieldOf(fields, s.shape[i].0))
      case Failure(_) => None
      case Success(v) =>
        match ObjectFrom(s, fields, i + 1)
        case None => None
        case Some(rest) =>
          // a later key of the shape is assigned after an earlier one
          Some(Obj(if s.shape[i].0 in rest.fields then rest.fields else rest.fields[s.shape[i].0 := v]))
  }

  /** The loop of `unionSchema`: the first option from position `i` on that succeeds. */
  function UnionFrom(s: Schema, input: Value, i: nat): Option<Value>
    requires s.SUnion?
    decreases s, 1, |s.options| - i
  {
    if i >= |s.options| then None
    else match SafeParse(s.options[i], input)
      case Success(v) => Some(v)
      case Failure(_) => UnionFrom(s, input, i + 1)
  }

  /** `z.literalArray`: position `j` of the tuple parsed against `xs[j]` (undefined when absent). */
  function TupleFrom(s: Schema, xs: seq<Value>, i: nat): Option<Value>
    requires s.STuple?
    decreases s, 1, |s.elems| - i
  {
    if i >= |s.elems| then Some(Arr([]))
    else match SafeParse(s.elems[i], At(xs, i))
      case Failure(_) => None
      case Success(v) =>
        match TupleFrom(s, xs, i + 1)
        case None => None
        case Some(rest) => Some(Arr([v] + rest.items))
  }
}

/** Properties of the validator that the event decoders and their callers rely on. */
module ZodLiteProperties {
  import opened Wrappers
  import opened Values
  import opened ZodLite

  /** `parse`: the data on success, otherwise the first issue's message or "Invalid value". */
  function Parse(s: Schema, input: Value): (r: Result<Value, string>)
    ensures SafeParse(s, input).Success? ==> r == Ok(SafeParse(s, input).data)
    ensures SafeParse(s, input).Failure? && |SafeParse(s, input).issues| > 0 ==>
              r == Err(SafeParse(s, input).issues[0].message)
    ensures SafeParse(s, input).Failure? && SafeParse(s, input).issues == [] ==> r == Err("Invalid value")
  {
    match SafeParse(s, input)
    case Success(v) => Ok(v)
    case Failure(issues) => Err(if |issues| > 0 then issues[0].message else "Invalid value")
  }

  /** String, number and boolean schemas accept exactly their own type; number rejects NaN. */
  lemma ScalarSchemas(v: Value)
    ensures SafeParse(SString, v) ==
      if v.Str? then Success(v) else Failure([Issue([], "Expected string", "string", TypeOf(v))])
    ensures SafeParse(SNumber, v) ==
      if v.Num? then Success(v) else Failure([Issue([], "Expected number", "number", TypeOf(v))])
    ensures SafeParse(SBoolean, v) ==
      if v.Bool? then Success(v) else Failure([Issue([], "Expected boolean", "boolean", TypeOf(v))])
    ensures SafeParse(SNumber, NaN).Failure? && TypeOf(NaN) == "number"
  {
  }

  /** A literal schema accepts only the literal itself and returns it. */
  lemma LiteralSchema(l: Literal, v: Value)
    ensures SafeParse(SLiteral(l), v).Success? <==> v == LiteralValue(l)
    ensures SafeParse(SLiteral(l), v).Success? ==> SafeParse(SLiteral(l), v).data == LiteralValue(l)
    ensures SafeParse(SLiteral(l), v).Failure? ==>
              SafeParse(SLiteral(l), v).issues == [Issue([], "Expected literal value", "literal", TypeOf(v))]
  {
  }

  /** `optional()` accepts undefined as undefined and `nullable()` accepts null as null;
      any other input goes to the inner parser, in the same context. */
  lemma OptionalNullable(s: Schema, v: Value)
    ensures SafeParse(SOptional(s), v) == if v == Undefined then Success(Undefined) else SafeParse(s, v)
    ensures SafeParse(SNullable(s), v) == if v == Null then Success(Null) else SafeParse(s, v)
  {
  }

  /** What the loop of `arraySchema` computes from index `i` on. */
  lemma {:induction false} ArrayFromSucceeds(s: Schema, xs: seq<Value>, i: nat)
    requires s.SArray? && i <= |xs|
    ensures ArrayFrom(s, xs, i).Some? <==> forall j :: i <= j < |xs| ==> SafeParse(s.item, xs[j]).Success?
    decreases |xs| - i
  {
    if i < |xs| {
      ArrayFromSucceeds(s, xs, i + 1);
    }
  }

  lemma {:induction false} ArrayFromItems(s: Schema, xs: seq<Value>, i: nat)
    requires s.SArray? && i <= |xs| && ArrayFrom(s, xs, i).Some?
    ensures ArrayFrom(s, xs, i).value.Arr?
    ensures |ArrayFrom(s, xs, i).value.items| == |xs| - i
    ensures forall j :: i <= j < |xs| ==>
              SafeParse(s.item, xs[j]).Success? && ArrayFrom(s, xs, i).value.items[j - i] == SafeParse(s.item, xs[j]).data
    decreases |xs| - i
  {
    if i < |xs| {
      ArrayFromItems(s, xs, i + 1);
    }
  }

  /** An array schema fails on non-arrays with one issue; on an array it succeeds exactly when
      every element does, with the elements' parsed values in order, and an element's
      failure adds no issue of its own. */
  lemma ArraySchema(item: Schema, v: Value)
    ensures !v.Arr? ==> SafeParse(SArray(item), v) == Failure([Issue([], "Expected array", "array", TypeOf(v))])
    ensures v.Arr? ==>
              (SafeParse(SArray(item), v).Success? <==> forall j :: 0 <= j < |v.items| ==> SafeParse(item, v.items[j]).Success?)
    ensures v.Arr? && SafeParse(SArray(item), v).Failure? ==> SafeParse(SArray(item), v).issues == []
    ensures v.Arr? && SafeParse(SArray(item), v).Success? ==>
              && SafeParse(SArray(item), v).data.Arr?
              && |SafeParse(SArray(item), v).data.items| == |v.items|
              && forall j :: 0 <= j < |v.items| ==> SafeParse(SArray(item), v).data.items[j] == SafeParse(item, v.items[j]).data
  {
    if v.Arr? {
      var a := ArrayFrom(SArray(item), v.items, 0);
      assert SafeParse(SArray(item), v) == if a.Some? then Success(a.value) else Failure([]);
      ArrayFromSucceeds(SArray(item), v.items, 0);
      if a.Some? {
        ArrayFromItems(SArray(item), v.items, 0);
        forall j | 0 <= j < |v.items|
          ensures a.value.items[j] == SafeParse(item, v.items[j]).data
        {
          assert a.value.items[j - 0] == SafeParse(item, v.items[j]).data;
        }
      }
    }
  }

  /** The keys of an object schema's shape from position `i` on. */
  function ShapeKeys(shape: seq<(string, Schema)>, i: nat): (keys: set<string>)
    ensures forall j :: i <= j < |shape| ==> shape[j].0 in keys
    ensures forall k :: k in keys ==> exists j :: i <= j < |shape| && shape[j].0 == k
    decreases |shape| - i
  {
    if i >= |shape| then {} else {shape[i].0} + ShapeKeys(shape, i + 1)
  }

  /** The shape names every key once, as the keys of a JavaScript object literal do. */
  predicate DistinctKeys(shape: seq<(string, Schema)>) {
    forall j, k :: 0 <= j < k < |shape| ==> shape[j].0 != shape[k].0
  }

  lemma {:induction false} ObjectFromSucceeds(s: Schema, fields: map<string, Value>, i: nat)
    requires s.SObject? && i <= |s.shape|
    ensures ObjectFrom(s, fields, i).Some? <==>
              forall j :: i <= j < |s.shape| ==> SafeParse(s.shape[j].1, FieldOf(fields, s.shape[j].0)).Success?
    decreases |s.shape| - i
  {
    if i < |s.shape| {
      ObjectFromSucceeds(s, fields, i + 1);
    }
  }

  lemma {:induction false} ObjectFromKeys(s: Schema, fields: map<string, Value>, i: nat)
    requires s.SObject? && i <= |s.shape|
    ensures ObjectFrom(s, fields, i).Some? ==>
              ObjectFrom(s, fields, i).value.Obj? && ObjectFrom(s, fields, i).value.fields.Keys == ShapeKeys(s.shape, i)
    decreases |s.shape| - i
  {
    if i < |s.shape| {
      ObjectFromKeys(s, fields, i + 1);
    }
  }

  lemma {:induction false} ObjectFromValues(s: Schema, fields: map<string, Value>, i: nat, j: nat)
    requires s.SObject? && i <= j < |s.shape| && DistinctKeys(s.shape)
    requires ObjectFrom(s, fields, i).Some?
    ensures ObjectFrom(s, fields, i).value.Obj?
    ensures s.shape[j].0 in ObjectFrom(s, fields, i).value.fields
    ensures SafeParse(s.shape[j].1, FieldOf(fields, s.shape[j].0)).Success?
    ensures ObjectFrom(s, fields, i).value.fields[s.shape[j].0] == SafeParse(s.shape[j].1, FieldOf(fields, s.shape[j].0)).data
    decreases |s.shape| - i
  {
    ObjectFromSucceeds(s, fields, i);
    ObjectFromKeys(s, fields, i + 1);
    var rest := ObjectFrom(s, fields, i + 1);
    assert s.shape[i].0 !in ShapeKeys(s.shape, i + 1);
    if i < j {
      ObjectFromValues(s, fields, i + 1, j);
    }
  }

  /** An object schema rejects null, arrays and every non-object with one issue; on success
      the output holds exactly the shape's keys, each parsed from the input's field. */
  lemma ObjectSchema(shape: seq<(string, Schema)>, v: Value)
    ensures !v.Obj? ==> SafeParse(SObject(shape), v) == Failure([Issue([], "Expected object", "object", TypeOf(v))])
    ensures v.Obj? ==>
              (SafeParse(SObject(shape), v).Success? <==>
                 forall j :: 0 <= j < |shape| ==> SafeParse(shape[j].1, FieldOf(v.fields, shape[j].0)).Success?)
    ensures v.Obj? && SafeParse(SObject(shape), v).Failure? ==> SafeParse(SObject(shape), v).issues == []
    ensures SafeParse(SObject(shape), v).Success? ==>
              && SafeParse(SObject(shape), v).data.Obj?
              && SafeParse(SObject(shape), v).data.fields.Keys == ShapeKeys(shape, 0)
    ensures SafeParse(SObject(shape), v).Success? && DistinctKeys(shape) ==>
              forall j :: 0 <= j < |shape| ==>
                SafeParse(SObject(shape), v).data.fields[shape[j].0] == SafeParse(shape[j].1, FieldOf(v.fields, shape[j].0)).data
  {
    if v.Obj? {
      ObjectFromSucceeds(SObject(shape), v.fields, 0);
      ObjectFromKeys(SObject(shape), v.fields, 0);
      if SafeParse(SObject(shape), v).Success? && DistinctKeys(shape) {
        forall j | 0 <= j < |shape|
          ensures SafeParse(SObject(shape), v).data.fields[shape[j].0] == SafeParse(shape[j].1, FieldOf(v.fields, shape[j].0)).data
        {
          ObjectFromValues(SObject(shape), v.fields, 0, j);
        }
      }
    }
  }

  lemma {:induction false} UnionFromFirst(s: Schema, input: Value, i: nat, k: nat)
    requires s.SUnion? && i <= k < |s.options|
    requires forall j :: i <= j < k ==> SafeParse(s.options[j], input).Failure?
    requires SafeParse(s.options[k], input).Success?
    ensures UnionFrom(s, input, i) == Some(SafeParse(s.options[k], input).data)
    decreases k - i
  {
    if i < k {
      UnionFromFirst(s, input, i + 1, k);
    }
  }

  lemma {:induction false} UnionFromNone(s: Schema, input: Value, i: nat)
    requires s.SUnion? && i <= |s.options|
    requires forall j :: i <= j < |s.options| ==> SafeParse(s.options[j], input).Failure?
    ensures UnionFrom(s, input, i) == None
    decreases |s.options| - i
  {
    if i < |s.options| {
      UnionFromNone(s, input, i + 1);
    }
  }

  /** A union returns the value of the first option, in declaration order, that succeeds. */
  lemma UnionFirstMatch(options: seq<Schema>, input: Value, k: nat)
    requires k < |options|
    requires forall j :: 0 <= j < k ==> SafeParse(options[j], input).Failure?
    requires SafeParse(options[k], input).Success?
    ensures SafeParse(SUnion(options), input) == Success(SafeParse(options[k], input).data)
  {
    UnionFromFirst(SUnion(options), input, 0, k);
  }

  /** When no option succeeds the union adds the single issue "No union variant matched". */
  lemma UnionNoMatch(options: seq<Schema>, input: Value)
    requires forall j :: 0 <= j < |options| ==> SafeParse(options[j], input).Failure?
    ensures SafeParse(SUnion(options), input) ==
              Failure([Issue([], "No union variant matched", "union", TypeOf(input))])
  {
    UnionFromNone(SUnion(options), input, 0);
  }

  lemma {:induction false} TupleFromAccepts(s: Schema, xs: seq<Value>, vs: seq<Value>, i: nat)
    requires s.STuple? && |vs| == |s.elems| && i <= |s.elems|
    requires forall j :: i <= j < |s.elems| ==> SafeParse(s.elems[j], At(xs, j)) == Success(vs[j])
    ensures TupleFrom(s, xs, i) == Some(Arr(vs[i..]))
    decreases |s.elems| - i
  {
    if i < |s.elems| {
      TupleFromAccepts(s, xs, vs, i + 1);
      assert SafeParse(s.elems[i], At(xs, i)) == Success(vs[i]);
      assert vs[i..] == [vs[i]] + vs[i + 1..];
    } else {
      assert vs[i..] == [];
    }
  }

  lemma {:induction false} TupleFromRejects(s: Schema, xs: seq<Value>, i: nat, k: nat)
    requires s.STuple? && i <= k < |s.elems|
    requires SafeParse(s.elems[k], At(xs, k)).Failure?
    ensures TupleFrom(s, xs, i) == None
    decreases k - i
  {
    if i < k {
      TupleFromRejects(s, xs, i + 1, k);
    }
  }

  /** A tuple schema (`z.literalArray`) succeeds on an array exactly when every position
      does, missing positions being read as undefined; its value lists the positions' values. */
  lemma TupleAccepts(elems: seq<Schema>, xs: seq<Value>, vs: seq<Value>)
    requires |vs| == |elems|
    requires forall j :: 0 <= j < |elems| ==> SafeParse(elems[j], At(xs, j)) == Success(vs[j])
    ensures SafeParse(STuple(elems), Arr(xs)) == Success(Arr(vs))
  {
    TupleFromAccepts(STuple(elems), xs, vs, 0);
  }

  /** One failing position makes a tuple fail, without an issue of its own. */
  lemma TupleRejects(elems: seq<Schema>, xs: seq<Value>, k: nat)
    requires k < |elems| && SafeParse(elems[k], At(xs, k)).Failure?
    ensures SafeParse(STuple(elems), Arr(xs)) == Failure([])
  {
    TupleFromRejects(STuple(elems), xs, 0, k);
  }

  /** Every issue a parser adds carries the context's path at that moment, and a parser adds
      at most one issue: nested parses run in contexts of their own. */
  lemma {:induction false} RunIssues(s: Schema, input: Value, path: seq<PathSegment>)
    ensures |Run(s, input, path).issues| <= 1
    ensures forall iss :: iss in Run(s, input, path).issues ==> iss.path == path
    ensures Run(s, input, path).value.Some? ==> Run(s, input, path).issues == []
    decreases s
  {
    match s
    case SOptional(inner) => RunIssues(inner, input, path);
    case SNullable(inner) => RunIssues(inner, input, path);
    case _ =>
  }

  /** Hence every issue `safeParse` reports has the empty path. */
  lemma SafeParseIssues(s: Schema, input: Value)
    ensures SafeParse(s, input).Failure? ==>
              |SafeParse(s, input).issues| <= 1 && forall iss :: iss in SafeParse(s, input).issues ==> iss.path == []
  {
    RunIssues(s, input, []);
  }
  /** Schemas whose successful parse returns the input itself: scalars, literals, `unknown`,
      and optional, nullable or array wrappers around such schemas. */
  predicate Plain(s: Schema) {
    match s
    case SString => true
    case SNumber => true
    case SBoolean => true
    case SLiteral(_) => true
    case SUnknown => true
    case SOptional(inner) => Plain(inner)
    case SNullable(inner) => Plain(inner)
    case SArray(item) => Plain(item)
    case _ => false
  }

  /** The values a plain schema accepts, stated directly. */
  predicate Admits(s: Schema, v: Value) {
    match s
    case SString => v.Str?
    case SNumber => v.Num?
    case SBoolean => v.Bool?
    case SLiteral(l) => v == LiteralValue(l)
    case SUnknown => true
    case SOptional(inner) => v == Undefined || Admits(inner, v)
    case SNullable(inner) => v == Null || Admits(inner, v)
    case SArray(item) => v.Arr? && forall j :: 0 <= j < |v.items| ==> Admits(item, v.items[j])
    case _ => false
  }

  /** A plain schema's parse succeeds exactly on the values it admits. */
  lemma {:induction false} AdmitsIff(s: Schema, v: Value)
    requires Plain(s)
    ensures SafeParse(s, v).Success? <==> Admits(s, v)
    decreases s
  {
    match s
    case SOptional(inner) => AdmitsIff(inner, v);
    case SNullable(inner) => AdmitsIff(inner, v);
    case SArray(item) =>
      if v.Arr? {
        ArraySchema(item, v);
        forall j | 0 <= j < |v.items|
          ensures SafeParse(item, v.items[j]).Success? <==> Admits(item, v.items[j])
        {
          AdmitsIff(item, v.items[j]);
        }
      }
    case _ =>
  }

  lemma {:induction false} PlainIdentity(s: Schema, v: Value)
    requires Plain(s)
    ensures SafeParse(s, v).Success? ==> SafeParse(s, v).data == v
    decreases s
  {
    match s
    case SOptional(inner) => PlainIdentity(inner, v);
    case SNullable(inner) => PlainIdentity(inner, v);
    case SArray(item) =>
      if v.Arr? && SafeParse(s, v).Success? {
        ArraySchema(item, v);
        forall j | 0 <= j < |v.items|
          ensures SafeParse(s, v).data.items[j] == v.items[j]
        {
          PlainIdentity(item, v.items[j]);
        }
        assert SafeParse(s, v).data.items == v.items;
      }
    case _ =>
  }

  /** Every position of a tuple schema accepts the matching element (undefined past the end). */
  predicate TupleOk(elems: seq<Schema>, xs: seq<Value>) {
    forall j :: 0 <= j < |elems| ==> Admits(elems[j], At(xs, j))
  }

  /** The first `n` elements of `xs`, padded with undefined. */
  function Padded(xs: seq<Value>, n: nat): (r: seq<Value>)
    ensures |r| == n && forall j :: 0 <= j < n ==> r[j] == At(xs, j)
  {
    seq(n, (j: int) requires 0 <= j < n => At(xs, j))
  }

  predicate PlainElems(elems: seq<Schema>) {
    forall j :: 0 <= j < |elems| ==> Plain(elems[j])
  }

  /** A tuple of plain schemas returns the padded prefix of its input, or fails without issues. */
  lemma PlainTuple(elems: seq<Schema>, xs: seq<Value>)
    requires PlainElems(elems)
    ensures SafeParse(STuple(elems), Arr(xs)) ==
              if TupleOk(elems, xs) then Success(Arr(Padded(xs, |elems|))) else Failure([])
  {
    forall j | 0 <= j < |elems|
      ensures SafeParse(elems[j], At(xs, j)).Success? <==> Admits(elems[j], At(xs, j))
    {
      AdmitsIff(elems[j], At(xs, j));
    }
    if TupleOk(elems, xs) {
      forall j | 0 <= j < |elems|
        ensures SafeParse(elems[j], At(xs, j)) == Success(Padded(xs, |elems|)[j])
      {
        PlainIdentity(elems[j], At(xs, j));
      }
      TupleAccepts(elems, xs, Padded(xs, |elems|));
    } else {
      var k :| 0 <= k < |elems| && !Admits(elems[k], At(xs, k));
      TupleRejects(elems, xs, k);
    }
  }

  /** Every option is a tuple of plain schemas. */
  predicate PlainTuples(options: seq<Schema>) {
    forall j :: 0 <= j < |options| ==> options[j].STuple? && PlainElems(options[j].elems)
  }

  /** A union of plain tuples returns the padded prefix for the first option that accepts. */
  lemma PlainUnionFirst(options: seq<Schema>, xs: seq<Value>, k: nat)
    requires PlainTuples(options) && k < |options|
    requires forall j :: 0 <= j < k ==> !TupleOk(options[j].elems, xs)
    requires TupleOk(options[k].elems, xs)
    ensures SafeParse(SUnion(options), Arr(xs)) == Success(Arr(Padded(xs, |options[k].elems|)))
  {
    forall j | 0 <= j <= k
      ensures SafeParse(options[j], Arr(xs)) ==
                if TupleOk(options[j].elems, xs) then Success(Arr(Padded(xs, |options[j].elems|))) else Failure([])
    {
      PlainTuple(options[j].elems, xs);
    }
    UnionFirstMatch(options, Arr(xs), k);
  }

  /** A union of plain tuples that no option accepts fails. */
  lemma PlainUnionNone(options: seq<Schema>, xs: seq<Value>)
    requires PlainTuples(options)
    requires forall j :: 0 <= j < |options| ==> !TupleOk(options[j].elems, xs)
    ensures SafeParse(SUnion(options), Arr(xs)).Failure?
  {
    forall j | 0 <= j < |options|
      ensures SafeParse(options[j], Arr(xs)).Failure?
    {
      PlainTuple(options[j].elems, xs);
    }
    UnionNoMatch(options, Arr(xs));
  }
  /** A union of plain tuples where every option but `k` fails at position `p`: the union
      decodes exactly as option `k` does. */
  lemma PlainUnionOnly(options: seq<Schema>, xs: seq<Value>, k: nat, p: nat)
    requires PlainTuples(options) && k < |options|
    requires forall j :: 0 <= j < |options| && j != k ==> p < |options[j].elems| && !Admits(options[j].elems[p], At(xs, p))
    ensures SafeParse(SUnion(options), Arr(xs)) ==
              if TupleOk(options[k].elems, xs) then Success(Arr(Padded(xs, |options[k].elems|)))
              else Failure([Issue([], "No union variant matched", "union", "object")])
  {
    forall j | 0 <= j < |options|
      ensures SafeParse(options[j], Arr(xs)) ==
                if TupleOk(options[j].elems, xs) then Success(Arr(Padded(xs, |options[j].elems|))) else Failure([])
    {
      PlainTuple(options[j].elems, xs);
    }
    if TupleOk(options[k].elems, xs) {
      UnionFirstMatch(options, Arr(xs), k);
    } else {
      UnionNoMatch(options, Arr(xs));
    }
  }

  /** A union of plain tuples whose every option fails at position `p` fails. */
  lemma PlainUnionNoneAt(options: seq<Schema>, xs: seq<Value>, p: nat)
    requires PlainTuples(options)
    requires forall j :: 0 <= j < |options| ==> p < |options[j].elems| && !Admits(options[j].elems[p], At(xs, p))
    ensures SafeParse(SUnion(options), Arr(xs)).Failure?
  {
    PlainUnionNone(options, xs);
  }
  // Unrolled forms of the quantified predicates above, for schemas of a known size.
  lemma TupleOk1(elems: seq<Schema>, xs: seq<Value>)
    requires |elems| == 1
    ensures TupleOk(elems, xs) <==> Admits(elems[0], At(xs, 0))
    ensures PlainElems(elems) <==> Plain(elems[0])
  {
  }

  lemma TupleOk2(elems: seq<Schema>, xs: seq<Value>)
    requires |elems| == 2
    ensures TupleOk(elems, xs) <==> Admits(elems[0], At(xs, 0)) && Admits(elems[1], At(xs, 1))
    ensures PlainElems(elems) <==> Plain(elems[0]) && Plain(elems[1])
  {
  }

  lemma TupleOk3(elems: seq<Schema>, xs: seq<Value>)
    requires |elems| == 3
    ensures TupleOk(elems, xs) <==> Admits(elems[0], At(xs, 0)) && Admits(elems[1], At(xs, 1)) && Admits(elems[2], At(xs, 2))
    ensures PlainElems(elems) <==> Plain(elems[0]) && Plain(elems[1]) && Plain(elems[2])
  {
  }

  lemma TupleOk4(elems: seq<Schema>, xs: seq<Value>)
    requires |elems| == 4
    ensures TupleOk(elems, xs) <==> Admits(elems[0], At(xs, 0)) && Admits(elems[1], At(xs, 1)) && Admits(elems[2], At(xs, 2)) && Admits(elems[3], At(xs, 3))
    ensures PlainElems(elems) <==> Plain(elems[0]) && Plain(elems[1]) && Plain(elems[2]) && Plain(elems[3])
  {
  }

  lemma TupleOk5(elems: seq<Schema>, xs: seq<Value>)
    requires |elems| == 5
    ensures TupleOk(elems, xs) <==> Admits(elems[0], At(xs, 0)) && Admits(elems[1], At(xs, 1)) && Admits(elems[2], At(xs, 2)) && Admits(elems[3], At(xs, 3)) && Admits(elems[4], At(xs, 4))
    ensures PlainElems(elems) <==> Plain(elems[0]) && Plain(elems[1]) && Plain(elems[2]) && Plain(elems[3]) && Plain(elems[4])
  {
  }

  lemma TupleOk6(elems: seq<Schema>, xs: seq<Value>)
    requires |elems| == 6
    ensures TupleOk(elems, xs) <==> Admits(elems[0], At(xs, 0)) && Admits(elems[1], At(xs, 1)) && Admits(elems[2], At(xs, 2)) && Admits(elems[3], At(xs, 3)) && Admits(elems[4], At(xs, 4)) && Admits(elems[5], At(xs, 5))
    ensures PlainElems(elems) <==> Plain(elems[0]) && Plain(elems[1]) && Plain(elems[2]) && Plain(elems[3]) && Plain(elems[4]) && Plain(elems[5])
  {
  }

  lemma PlainTuples2(options: seq<Schema>)
    requires |options| == 2
    ensures PlainTuples(options) <==> options[0].STuple? && PlainElems(options[0].elems) && options[1].STuple? && PlainElems(options[1].elems)
  {
  }

  lemma PlainTuples6(options: seq<Schema>)
    requires |options| == 6
    ensures PlainTuples(options) <==> options[0].STuple? && PlainElems(options[0].elems) && options[1].STuple? && PlainElems(options[1].elems) && options[2].STuple? && PlainElems(options[2].elems) && options[3].STuple? && PlainElems(options[3].elems) && options[4].STuple? && PlainElems(options[4].elems) && options[5].STuple? && PlainElems(options[5].elems)
  {
  }
}
