/**
 * The hello RPCs (backend/internal/controller/hello.go and backend/internal/handler/hello.go).
 * `Say` checks that both numbers are present and that their product is at most 1000 and
 * answers "Result: <a·b>"; `Greet` trims the name and answers "Hello, <name>!".  The two
 * files hold the same `Say`, which is modelled once.  The width of the generated A and B
 * fields is not known, so the numbers are unbounded integers.
 */
module Hello {
  import opened Wrappers
  import opened Decimal
  import opened Rpc

  const MaxProduct := 1000

  const MissingA := "missing required field: a"
  const MissingB := "missing required field: b"
  const MissingName := "missing required field: name"
  const TooLarge := "a * b must be <= 1000"
  const ResultPrefix := "Result: "

  /** A response: the message and the `X-Hello-Server` header. */
  datatype Response = Response(message: string, server: string)

  /** Go's `%d`: a minus sign before the digits of a negative number. */
  function FormatInt(n: int): string {
    if n < 0 then "-" + Show(-n) else Show(n)
  }

  /** Reading back what `FormatInt` writes. */
  function ReadInt(s: string): int {
    if |s| > 0 && s[0] == '-' then -(Value(s[1..]) as int) else Value(s)
  }

  lemma ReadFormat(n: int)
    ensures ReadInt(FormatInt(n)) == n
  {
    if n < 0 {
      assert ("-" + Show(-n))[1..] == Show(-n);
      ValueShow(-n);
    } else {
      ValueShow(n);
    }
  }

  /** `Say`: the field checks in order, the product bound, and the formatted product. */
  function Say(a: Option<int>, b: Option<int>): (r: Result<Response, Error>)
    ensures a.None? ==> r == Err(Error(InvalidArgument, MissingA))
    ensures a.Some? && b.None? ==> r == Err(Error(InvalidArgument, MissingB))
    ensures a.Some? && b.Some? && a.value * b.value > MaxProduct ==> r == Err(Error(OutOfRange, TooLarge))
    ensures r.Ok? <==> a.Some? && b.Some? && a.value * b.value <= MaxProduct
    ensures r.Ok? ==> r.value.server == HelloServerHeader
  {
    if a.None? then Err(Error(InvalidArgument, MissingA))
    else if b.None? then Err(Error(InvalidArgument, MissingB))
    else if a.value * b.value > MaxProduct then Err(Error(OutOfRange, TooLarge))
    else Ok(Response(ResultPrefix + FormatInt(a.value * b.value), HelloServerHeader))
  }

  /**
   * A successful `Say` message is "Result: " followed by the product, which reads back; a
   * product of exactly 1000 succeeds and there is no lower bound.
   */
  lemma SayResult(a: int, b: int)
    requires a * b <= MaxProduct
    ensures Say(Some(a), Some(b)).Ok?
    ensures var m := Say(Some(a), Some(b)).value.message;
      |m| > |ResultPrefix| && m[..|ResultPrefix|] == ResultPrefix && ReadInt(m[|ResultPrefix|..]) == a * b
  {
    var m := Say(Some(a), Some(b)).value.message;
    assert m[|ResultPrefix|..] == FormatInt(a * b);
    ReadFormat(a * b);
  }

  /** The edges of the bound: 1000 itself is accepted and 1001 is out of range. */
  lemma SayBound()
    ensures Say(Some(10), Some(100)).Ok?
    ensures Say(Some(7), Some(143)) == Err(Error(OutOfRange, TooLarge))
    ensures Say(Some(-1000), Some(1000)).Ok?
  {
  }

  /** `unicode.IsSpace`: the Latin-1 spaces and the other Unicode White_Space characters. */
  predicate IsSpace(c: char) {
    c == '\t' || c == '\n' || c == '\U{000B}' || c == '\U{000C}' || c == '\r' || c == ' ' ||
    c == '\U{0085}' || c == '\U{00A0}' || c == '\U{1680}' || ('\U{2000}' <= c <= '\U{200A}') ||
    c == '\U{2028}' || c == '\U{2029}' || c == '\U{202F}' || c == '\U{205F}' || c == '\U{3000}'
  }

  /** The forward scan of `strings.TrimSpace`: the first index from `i` on that is not whitespace. */
  function TrimStart(s: string, i: nat): (start: nat)
    requires i <= |s|
    ensures i <= start <= |s|
    ensures forall k :: i <= k < start ==> IsSpace(s[k])
    ensures start == |s| || !IsSpace(s[start])
    decreases |s| - i
  {
    if i < |s| && IsSpace(s[i]) then TrimStart(s, i + 1) else i
  }

  /** The backward scan: the end of `s[start..j]` once its trailing whitespace is dropped. */
  function TrimStop(s: string, start: nat, j: nat): (stop: nat)
    requires start <= j <= |s|
    ensures start <= stop <= j
    ensures forall k :: stop <= k < j ==> IsSpace(s[k])
    ensures stop == start || !IsSpace(s[stop - 1])
    decreases j
  {
    if j > start && IsSpace(s[j - 1]) then TrimStop(s, start, j - 1) else j
  }

  /** `r` is `s[i..j]`, and everything of `s` outside it is whitespace. */
  predicate TrimmedAt(s: string, r: string, i: nat, j: nat) {
    i <= j <= |s| && r == s[i..j] &&
    (forall k :: 0 <= k < i ==> IsSpace(s[k])) && (forall k :: j <= k < |s| ==> IsSpace(s[k]))
  }

  /**
   * `strings.TrimSpace`: the part of `s` between its leading and its trailing whitespace,
   * which neither begins nor ends with a space.
   */
  function TrimSpace(s: string): (r: string)
    ensures exists i: nat, j: nat :: TrimmedAt(s, r, i, j)
    ensures r == [] || (!IsSpace(r[0]) && !IsSpace(r[|r| - 1]))
  {
    var start := TrimStart(s, 0);
    var stop := TrimStop(s, start, |s|);
    assert TrimmedAt(s, s[start..stop], start, stop);
    s[start..stop]
  }

  /** A name that is nothing but whitespace trims to nothing. */
  lemma TrimAllSpace(s: string)
    requires forall k :: 0 <= k < |s| ==> IsSpace(s[k])
    ensures TrimSpace(s) == []
  {
  }

  /** Trimming twice changes nothing more. */
  lemma TrimIdempotent(s: string)
    ensures TrimSpace(TrimSpace(s)) == TrimSpace(s)
  {
    var t := TrimSpace(s);
    assert TrimStart(t, 0) == 0;
    assert TrimStop(t, 0, |t|) == |t|;
    assert t[0..|t|] == t;
  }

  /** `Greet`: a name that trims to nothing is refused; otherwise the trimmed name is greeted. */
  function Greet(name: string): (r: Result<Response, Error>)
    ensures r.Err? <==> forall k :: 0 <= k < |name| ==> IsSpace(name[k])
    ensures r.Err? ==> r.error == Error(InvalidArgument, MissingName)
    ensures r.Ok? ==> r.value == Response("Hello, " + TrimSpace(name) + "!", HelloServerHeader)
  {
    var trimmed := TrimSpace(name);
    if trimmed == [] then
      TrimAllSpaceConverse(name);
      Err(Error(InvalidArgument, MissingName))
    else
      assert !(forall k :: 0 <= k < |name| ==> IsSpace(name[k])) by {
        if forall k :: 0 <= k < |name| ==> IsSpace(name[k]) { TrimAllSpace(name); }
      }
      Ok(Response("Hello, " + trimmed + "!", HelloServerHeader))
  }

  /** A name that trims to nothing is nothing but whitespace. */
  lemma TrimAllSpaceConverse(s: string)
    requires TrimSpace(s) == []
    ensures forall k :: 0 <= k < |s| ==> IsSpace(s[k])
  {
    var i: nat, j: nat :| TrimmedAt(s, [], i, j);
  }
}
