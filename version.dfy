/**
 * `versionToParts` and the check in `requireMinVersion` (cc-tstl/src/utils.ts): a version
 * string is split at '.', the first three pieces are read with `parseInt` (a missing piece
 * reads as "0"), and the running version must be at least the minimum in every one of the
 * three components.  A piece with no leading digit reads as NaN, and every comparison with
 * NaN is false.
 */
module Version {
  import opened Wrappers
  import opened Decimal

  /** The minimum version `verifyVersion` asks for. */
  const MinVersion := "1.85.0"

  /** `s.split(".")`. */
  function Split(s: string): (r: seq<string>)
    ensures |r| >= 1
    decreases |s|
  {
    if s == [] then [""]
    else if s[0] == '.' then [""] + Split(s[1..])
    else
      var rest := Split(s[1..]);
      [[s[0]] + rest[0]] + rest[1..]
  }

  /** The digits `parseInt` reads: the longest prefix of decimal digits. */
  function LeadingDigits(s: string): (r: string)
    ensures |r| <= |s| && r == s[..|r|]
    decreases |s|
  {
    if s == [] || !IsDigit(s[0]) then [] else [s[0]] + LeadingDigits(s[1..])
  }

  /** `parseInt(s)` on a version piece; `None` is NaN. */
  function ParseInt(s: string): Option<nat> {
    var ds := LeadingDigits(s);
    if ds == [] then None else Some(Value(ds))
  }

  /** `parts[i] ?? "0"`. */
  function Piece(parts: seq<string>, i: nat): string {
    if i < |parts| then parts[i] else "0"
  }

  datatype Parts = Parts(major: Option<nat>, minor: Option<nat>, patch: Option<nat>)

  function VersionToParts(version: string): Parts {
    var parts := Split(version);
    Parts(ParseInt(Piece(parts, 0)), ParseInt(Piece(parts, 1)), ParseInt(Piece(parts, 2)))
  }

  /** `x >= y` on numbers that may be NaN. */
  predicate AtLeast(x: Option<nat>, y: Option<nat>) {
    x.Some? && y.Some? && x.value >= y.value
  }

  /** The assertion in `requireMinVersion`, as written: every component at least the minimum's. */
  predicate MeetsMinimumAsWritten(version: string, minVersion: string) {
    var v := VersionToParts(version);
    var m := VersionToParts(minVersion);
    AtLeast(v.major, m.major) && AtLeast(v.minor, m.minor) && AtLeast(v.patch, m.patch)
  }

  /** The version order the check is evidently meant to test: major, then minor, then patch. */
  predicate NotBefore(v: Parts, m: Parts) {
    v.major.Some? && v.minor.Some? && v.patch.Some? && m.major.Some? && m.minor.Some? && m.patch.Some? &&
    (v.major.value > m.major.value ||
     (v.major.value == m.major.value &&
      (v.minor.value > m.minor.value || (v.minor.value == m.minor.value && v.patch.value >= m.patch.value))))
  }

  predicate MeetsMinimum(version: string, minVersion: string) {
    NotBefore(VersionToParts(version), VersionToParts(minVersion))
  }

  // ---------------------------------------------------------------- formatting, for the round trip

  function Format(major: nat, minor: nat, patch: nat): string {
    Show(major) + "." + Show(minor) + "." + Show(patch)
  }

  // ---------------------------------------------------------------- properties

  /** `parseInt` stops at the first non-digit. */
  lemma {:induction false} LeadingDigitsStop(ds: string, rest: string)
    requires forall k :: 0 <= k < |ds| ==> IsDigit(ds[k])
    requires rest == [] || !IsDigit(rest[0])
    ensures LeadingDigits(ds + rest) == ds
    decreases |ds|
  {
    if ds != [] {
      assert (ds + rest)[1..] == ds[1..] + rest;
      LeadingDigitsStop(ds[1..], rest);
    } else {
      assert ds + rest == rest;
    }
  }

  /** Splitting at the first '.' of a piece without one. */
  lemma {:induction false} SplitFirst(a: string, b: string)
    requires forall k :: 0 <= k < |a| ==> a[k] != '.'
    ensures Split(a + "." + b) == [a] + Split(b)
    decreases |a|
  {
    if a == [] {
      assert a + "." + b == "." + b;
      assert ("." + b)[1..] == b;
    } else {
      assert (a + "." + b)[1..] == a[1..] + "." + b;
      SplitFirst(a[1..], b);
      assert [a[0]] + a[1..] == a;
    }
  }

  lemma {:induction false} SplitNone(a: string)
    requires forall k :: 0 <= k < |a| ==> a[k] != '.'
    ensures Split(a) == [a]
    decreases |a|
  {
    if a != [] {
      SplitNone(a[1..]);
      assert [a[0]] + a[1..] == a;
    }
  }

  lemma ParseShow(n: nat)
    ensures ParseInt(Show(n)) == Some(n)
  {
    LeadingDigitsStop(Show(n), []);
    assert Show(n) + [] == Show(n);
    ValueShow(n);
  }

  /** `versionToParts` reads back the three numbers of a formatted version. */
  lemma PartsOfFormat(major: nat, minor: nat, patch: nat)
    ensures VersionToParts(Format(major, minor, patch)) == Parts(Some(major), Some(minor), Some(patch))
  {
    var a, b, c := Show(major), Show(minor), Show(patch);
    assert Format(major, minor, patch) == a + "." + (b + "." + c);
    SplitFirst(a, b + "." + c);
    SplitFirst(b, c);
    SplitNone(c);
    assert Split(Format(major, minor, patch)) == [a, b, c];
    ParseShow(major);
    ParseShow(minor);
    ParseShow(patch);
  }

  /** A version passes the check as written exactly when each component is at least the minimum's. */
  lemma AsWrittenIsComponentwise(major: nat, minor: nat, patch: nat, major': nat, minor': nat, patch': nat)
    ensures MeetsMinimumAsWritten(Format(major, minor, patch), Format(major', minor', patch')) <==>
      major >= major' && minor >= minor' && patch >= patch'
  {
    PartsOfFormat(major, minor, patch);
    PartsOfFormat(major', minor', patch');
  }

  /** The check as written turns away 2.0.0 although it is later than 1.85.0. */
  lemma NewerMajorRejected()
    ensures !MeetsMinimumAsWritten(Format(2, 0, 0), MinVersion)
    ensures MeetsMinimum(Format(2, 0, 0), MinVersion)
  {
    assert MinVersion == Format(1, 85, 0);
    PartsOfFormat(2, 0, 0);
    PartsOfFormat(1, 85, 0);
  }

  /** The corrected check is the version order on formatted versions. */
  lemma MeetsMinimumIsOrder(major: nat, minor: nat, patch: nat, major': nat, minor': nat, patch': nat)
    ensures MeetsMinimum(Format(major, minor, patch), Format(major', minor', patch')) <==>
      major > major' || (major == major' && (minor > minor' || (minor == minor' && patch >= patch')))
  {
    PartsOfFormat(major, minor, patch);
    PartsOfFormat(major', minor', patch');
  }

  /** The corrected order is total and transitive, and accepts whatever the check as written accepts. */
  lemma NotBeforeOrder(u: Parts, v: Parts, w: Parts)
    ensures NotBefore(u, v) && NotBefore(v, w) ==> NotBefore(u, w)
    ensures u.major.Some? && u.minor.Some? && u.patch.Some? && v.major.Some? && v.minor.Some? && v.patch.Some? ==>
      NotBefore(u, v) || NotBefore(v, u)
    ensures AtLeast(u.major, v.major) && AtLeast(u.minor, v.minor) && AtLeast(u.patch, v.patch) ==> NotBefore(u, v)
  {
  }
}
