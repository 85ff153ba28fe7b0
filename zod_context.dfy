/**
 * zod-lite's parse context as the TypeScript keeps it: one object whose path stack and issue
 * list the parsers change in place.  `addIssue` appends a copy of the current path,
 * `withPath` pushes a segment around a nested `safeParse` and pops it again, and the array,
 * object and union parsers loop over their elements, shape or options.  Each method here
 * is proved to do what the functional `Run` and `SafeParse` of ZodLite describe.
 */
module ZodContext {
  import opened Wrappers
  import opened Values
  import opened ZodLite

  class ParseContext {
    var path: seq<PathSegment>
    var issues: seq<Issue>

    /** The context `safeParse` starts with. */
    constructor ()
      ensures path == [] && issues == []
    {
      path := [];
      issues := [];
    }

    /** `addIssue`: one more issue, carrying the path as it is now. */
    method AddIssue(message: string, expected: string, received: string)
      modifies this
      ensures issues == old(issues) + [Issue(path, message, expected, received)]
      ensures path == old(path)
    {
      issues := issues + [Issue(path, message, expected, received)];
    }

    /**
     * `withPath(ctx, segment, () => schema.safeParse(value))`: the segment is pushed for
     * the nested parse and popped afterwards.  The nested parse runs in a context of its
     * own, so this context ends with its path as it found it and no new issue.
     */
    method WithPath(segment: PathSegment, schema: Schema, value: Value) returns (r: SafeParseReturn)
      modifies this
      ensures r == SafeParse(schema, value)
      ensures path == old(path) && issues == old(issues)
    {
      path := path + [segment];
      r := SafeParse(schema, value);
      path := path[..|path| - 1];
    }
  }

  /** The parsed elements before position `i`, joined with what the rest of the loop gives. */
  function Joined(done: seq<Value>, rest: Option<Value>): Option<Value> {
    match rest
    case Some(Arr(items)) => Some(Arr(done + items))
    case _ => None
  }

  /** The shape's fields parsed so far, overridden by what the rest of the loop assigns. */
  function Merged(done: map<string, Value>, rest: Option<Value>): Option<Value> {
    match rest
    case Some(Obj(fields)) => Some(Obj(done + fields))
    case _ => None
  }

  /** The rest of `ArrayFrom` from `i` is an array or nothing. */
  lemma {:induction false} ArrayFromShape(s: Schema, xs: seq<Value>, i: nat)
    requires s.SArray?
    ensures ArrayFrom(s, xs, i).None? || ArrayFrom(s, xs, i).value.Arr?
    decreases |xs| - i
  {
    if i < |xs| && SafeParse(s.item, xs[i]).Success? {
      ArrayFromShape(s, xs, i + 1);
    }
  }

  lemma {:induction false} ObjectFromShape(s: Schema, fields: map<string, Value>, i: nat)
    requires s.SObject?
    ensures ObjectFrom(s, fields, i).None? || ObjectFrom(s, fields, i).value.Obj?
    decreases |s.shape| - i
  {
    if i < |s.shape| && SafeParse(s.shape[i].1, FieldOf(fields, s.shape[i].0)).Success? {
      ObjectFromShape(s, fields, i + 1);
    }
  }

  /**
   * The loop of `arraySchema`: each element parsed under its index, a stop at the first
   * failure, and no issue of its own.
   */
  method ParseArray(ctx: ParseContext, s: Schema, xs: seq<Value>) returns (r: Option<Value>)
    requires s.SArray?
    modifies ctx
    ensures r == ArrayFrom(s, xs, 0)
    ensures ctx.path == old(ctx.path) && ctx.issues == old(ctx.issues)
  {
    var output: seq<Value> := [];
    ArrayFromShape(s, xs, 0);
    assert ArrayFrom(s, xs, 0).Some? ==> [] + ArrayFrom(s, xs, 0).value.items == ArrayFrom(s, xs, 0).value.items;
    for i := 0 to |xs|
      invariant ArrayFrom(s, xs, 0) == Joined(output, ArrayFrom(s, xs, i))
      invariant ctx.path == old(ctx.path) && ctx.issues == old(ctx.issues)
    {
      var itemResult := ctx.WithPath(Index(i), s.item, xs[i]);
      if itemResult.Failure? {
        return None;
      }
      ArrayFromShape(s, xs, i + 1);
      assert ArrayFrom(s, xs, i) == Joined([itemResult.data], ArrayFrom(s, xs, i + 1));
      assert ArrayFrom(s, xs, i + 1).Some? ==>
        output + ([itemResult.data] + ArrayFrom(s, xs, i + 1).value.items) ==
        (output + [itemResult.data]) + ArrayFrom(s, xs, i + 1).value.items;
      output := output + [itemResult.data];
    }
    assert output + [] == output;
    return Some(Arr(output));
  }

  /**
   * The loop of `objectSchema`: each key of the shape parsed under its name, in order, a
   * stop at the first failure, and no issue of its own.
   */
  method ParseObject(ctx: ParseContext, s: Schema, fields: map<string, Value>) returns (r: Option<Value>)
    requires s.SObject?
    modifies ctx
    ensures r == ObjectFrom(s, fields, 0)
    ensures ctx.path == old(ctx.path) && ctx.issues == old(ctx.issues)
  {
    var output: map<string, Value> := map[];
    ObjectFromShape(s, fields, 0);
    assert ObjectFrom(s, fields, 0).Some? ==> map[] + ObjectFrom(s, fields, 0).value.fields == ObjectFrom(s, fields, 0).value.fields;
    for i := 0 to |s.shape|
      invariant ObjectFrom(s, fields, 0) == Merged(output, ObjectFrom(s, fields, i))
      invariant ctx.path == old(ctx.path) && ctx.issues == old(ctx.issues)
    {
      var key := s.shape[i].0;
      var itemResult := ctx.WithPath(Key(key), s.shape[i].1, FieldOf(fields, key));
      if itemResult.Failure? {
        return None;
      }
      ObjectFromShape(s, fields, i + 1);
      MergeStep(output, key, itemResult.data, ObjectFrom(s, fields, i + 1));
      output := output[key := itemResult.data];
    }
    assert output + map[] == output;
    return Some(Obj(output));
  }

  /** Assigning `key` first and then the rest is the same as the step `ObjectFrom` takes. */
  lemma MergeStep(done: map<string, Value>, key: string, v: Value, rest: Option<Value>)
    requires rest.None? || rest.value.Obj?
    ensures Merged(done, if rest.None? then None else
      Some(Obj(if key in rest.value.fields then rest.value.fields else rest.value.fields[key := v]))) ==
      Merged(done[key := v], rest)
  {
    if rest.Some? {
      var m := rest.value.fields;
      var m' := if key in m then m else m[key := v];
      assert done + m' == done[key := v] + m;
    }
  }

  /**
   * The loop of `unionSchema`: the first option that parses wins; when none does, the
   * single issue "No union variant matched" is added at the current path.
   */
  method ParseUnion(ctx: ParseContext, s: Schema, input: Value) returns (r: Option<Value>)
    requires s.SUnion?
    modifies ctx
    ensures r == Run(s, input, old(ctx.path)).value
    ensures ctx.issues == old(ctx.issues) + Run(s, input, old(ctx.path)).issues
    ensures ctx.path == old(ctx.path)
  {
    for i := 0 to |s.options|
      invariant UnionFrom(s, input, 0) == UnionFrom(s, input, i)
      invariant ctx.path == old(ctx.path) && ctx.issues == old(ctx.issues)
    {
      var result := SafeParse(s.options[i], input);
      if result.Success? {
        assert ctx.issues == ctx.issues + [];
        return Some(result.data);
      }
    }
    ctx.AddIssue("No union variant matched", "union", TypeOf(input));
    return None;
  }

  /**
   * The parser `makeSchema` wraps, run on `ctx`: the same value as `Run` at the context's
   * path, the issues `Run` reports appended to the context's, and the path left as found.
   */
  method Parser(ctx: ParseContext, s: Schema, input: Value) returns (r: Option<Value>)
    modifies ctx
    ensures r == Run(s, input, old(ctx.path)).value
    ensures ctx.issues == old(ctx.issues) + Run(s, input, old(ctx.path)).issues
    ensures ctx.path == old(ctx.path)
    decreases s
  {
    assert ctx.issues == ctx.issues + [];
    match s {
      case SString =>
        if !input.Str? { ctx.AddIssue("Expected string", "string", TypeOf(input)); return None; }
        r := Some(input);
      case SNumber =>
        if !input.Num? { ctx.AddIssue("Expected number", "number", TypeOf(input)); return None; }
        r := Some(input);
      case SBoolean =>
        if !input.Bool? { ctx.AddIssue("Expected boolean", "boolean", TypeOf(input)); return None; }
        r := Some(input);
      case SLiteral(l) =>
        if input != LiteralValue(l) { ctx.AddIssue("Expected literal value", "literal", TypeOf(input)); return None; }
        r := Some(LiteralValue(l));
      case SArray(_) =>
        if !input.Arr? { ctx.AddIssue("Expected array", "array", TypeOf(input)); return None; }
        r := ParseArray(ctx, s, input.items);
        assert ctx.issues == old(ctx.issues) + [];
      case SObject(_) =>
        if !input.Obj? { ctx.AddIssue("Expected object", "object", TypeOf(input)); return None; }
        r := ParseObject(ctx, s, input.fields);
        assert ctx.issues == old(ctx.issues) + [];
      case SUnion(_) =>
        r := ParseUnion(ctx, s, input);
      case SOptional(inner) =>
        if input == Undefined { r := Some(Undefined); assert ctx.issues == old(ctx.issues) + []; return; }
        r := Parser(ctx, inner, input);
      case SNullable(inner) =>
        if input == Null { r := Some(Null); assert ctx.issues == old(ctx.issues) + []; return; }
        r := Parser(ctx, inner, input);
      case STuple(_) =>
        // `z.literalArray` is not defined in zod-lite.ts; its positional check is `TupleFrom`
        if !input.Arr? { ctx.AddIssue("Expected array", "array", TypeOf(input)); return None; }
        r := TupleFrom(s, input.items, 0);
      case SUnknown =>
        r := Some(input);
    }
  }

  /**
   * `safeParse` of the object `makeSchema` builds: a fresh context, the parser, and then the
   * value or the issues the context collected.
   */
  method SafeParseWith(s: Schema, input: Value) returns (r: SafeParseReturn)
    ensures r == SafeParse(s, input)
  {
    var ctx := new ParseContext();
    var result := Parser(ctx, s, input);
    ghost var o := Run(s, input, []);
    assert result == o.value && ctx.issues == [] + o.issues;
    assert [] + o.issues == o.issues;
    if result.Some? {
      return Success(result.value);
    }
    return Failure(ctx.issues);
  }
}
