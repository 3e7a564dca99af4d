/**
 * Values shared by the whole model: optional values, Java exceptions with
 * their cause chains, and the few `java.lang.String` operations the plugin
 * relies on (`trim`, `split`, `replace`, `startsWith`).
 */
module Common {

  datatype Option<+T> = None | Some(value: T)

  /** A value or the exception the Java code would throw instead. */
  datatype Result<+T> = Ok(value: T) | Err(error: Throwable)

  /**
   * A parsed JSON / XContent value: what `parser.map()` and
   * `getSourceAsMap()` return, and what the plugin stores in its
   * `Map<String, Object>` parameters. `JFloatArray` is a Java `float[]`,
   * which is not a `List`.
   */
  datatype Json =
    | JNull
    | JBool(b: bool)
    | JNum(n: real)
    | JStr(s: string)
    | JList(items: seq<Json>)
    | JFloatArray(floats: seq<real>)
    | JObject(fields: map<string, Json>)

  /** REST status codes that the transport actions attach to their errors. */
  datatype RestStatus = BadRequest | NotFound | Conflict | InternalServerError

  /** `AsyncStatus` of experiments and experiment variants. */
  datatype AsyncStatus = Processing | Completed | Error

  /** `ExperimentType`. */
  datatype ExperimentType = PairwiseComparison | PointwiseEvaluation | HybridOptimizer

  /** The classes of `Throwable` the orchestrator tells apart. */
  datatype ThrowableKind =
    | OutOfMemoryError
    | StackOverflowError
    | CircuitBreakingException
    | ClusterBlockException
    | RejectedExecutionException
    | IllegalArgumentException
    | IOException
    | NullPointerException
    | ClassCastException
    | IllegalStateException
    | SearchRelevanceException(status: RestStatus)
    | OtherException

  /** A thrown value with its message and the chain of `getCause()` links. */
  datatype Throwable = Throwable(kind: ThrowableKind, message: string, cause: Option<Throwable>)

  /** The kinds met when following `getCause()` from `t` until it is null. */
  function CauseChain(t: Throwable): (chain: seq<ThrowableKind>)
    ensures |chain| >= 1 && chain[0] == t.kind
  {
    match t.cause
    case None => [t.kind]
    case Some(c) => [t.kind] + CauseChain(c)
  }

  // ---------------------------------------------------------------------
  // java.lang.String
  // ---------------------------------------------------------------------

  /** `String.trim()` drops every character whose code is at most U+0020. */
  predicate IsTrimmable(c: char) { c <= ' ' }

  /** All characters of `s` are ones `trim()` drops: `s.trim().isEmpty()`. */
  predicate IsBlank(s: string) { forall i :: 0 <= i < |s| ==> IsTrimmable(s[i]) }

  function TrimStart(s: string): (r: string)
    ensures |r| <= |s|
  {
    if s == [] || !IsTrimmable(s[0]) then s else TrimStart(s[1..])
  }

  function TrimEnd(s: string): (r: string)
    ensures |r| <= |s|
  {
    if s == [] || !IsTrimmable(s[|s| - 1]) then s else TrimEnd(s[..|s| - 1])
  }

  /** `TrimStart` cuts a prefix of trimmable characters and stops at the first other one. */
  lemma {:induction false} TrimStartFacts(s: string)
    ensures TrimStart(s) == s[|s| - |TrimStart(s)|..]
    ensures forall i :: 0 <= i < |s| - |TrimStart(s)| ==> IsTrimmable(s[i])
    ensures TrimStart(s) == [] || !IsTrimmable(TrimStart(s)[0])
  {
    if s != [] && IsTrimmable(s[0]) {
      TrimStartFacts(s[1..]);
    }
  }

  /** `TrimEnd` cuts a suffix of trimmable characters and stops at the last other one. */
  lemma {:induction false} TrimEndFacts(s: string)
    ensures TrimEnd(s) == s[..|TrimEnd(s)|]
    ensures forall i :: |TrimEnd(s)| <= i < |s| ==> IsTrimmable(s[i])
    ensures TrimEnd(s) == [] || !IsTrimmable(TrimEnd(s)[|TrimEnd(s)| - 1])
  {
    if s != [] && IsTrimmable(s[|s| - 1]) {
      TrimEndFacts(s[..|s| - 1]);
    }
  }

  /** `String.trim()`. */
  function Trim(s: string): string
  {
    TrimEnd(TrimStart(s))
  }

  /** How many leading characters `trim()` drops. */
  function LeadingTrimmed(s: string): nat
  {
    |s| - |TrimStart(s)|
  }

  /** The trimmed string is a slice of the input with only trimmable characters cut off. */
  lemma TrimIsSlice(s: string)
    ensures LeadingTrimmed(s) + |Trim(s)| <= |s|
    ensures Trim(s) == s[LeadingTrimmed(s)..LeadingTrimmed(s) + |Trim(s)|]
    ensures forall k :: 0 <= k < LeadingTrimmed(s) ==> IsTrimmable(s[k])
    ensures forall k :: LeadingTrimmed(s) + |Trim(s)| <= k < |s| ==> IsTrimmable(s[k])
  {
    var t := TrimStart(s);
    var i := |s| - |t|;
    var r := TrimEnd(t);
    TrimStartFacts(s);
    TrimEndFacts(t);
    forall k | i <= k < |s| ensures s[k] == t[k - i] {
    }
    assert s[i..i + |r|] == r;
  }

  /** Trimming twice is trimming once. */
  lemma TrimIdempotent(s: string)
    ensures Trim(Trim(s)) == Trim(s)
  {
    var r := Trim(s);
    TrimStartFacts(s);
    TrimEndFacts(TrimStart(s));
    if r != [] {
      assert r[0] == TrimStart(s)[0];
    }
    assert TrimStart(r) == r;
    assert TrimEnd(r) == r;
  }

  /** `s.trim().isEmpty()` holds exactly for blank strings. */
  lemma TrimEmptyIffBlank(s: string)
    ensures Trim(s) == [] <==> IsBlank(s)
  {
    var t := TrimStart(s);
    TrimStartFacts(s);
    TrimEndFacts(t);
    forall i | 0 <= i < |t| ensures t[i] == s[|s| - |t| + i] {
    }
  }

  /** `s.startsWith(prefix)`. */
  predicate StartsWith(s: string, prefix: string)
  {
    |prefix| <= |s| && s[..|prefix|] == prefix
  }

  /** The pieces between every occurrence of `sep`, empty pieces included. */
  function SplitAll(s: string, sep: char): (pieces: seq<string>)
    ensures |pieces| >= 1
    ensures forall p, i :: p in pieces && 0 <= i < |p| ==> p[i] != sep
  {
    if s == [] then [[]]
    else
      var rest := SplitAll(s[1..], sep);
      if s[0] == sep then [[]] + rest
      else [[s[0]] + rest[0]] + rest[1..]
  }

  /** Pieces joined back with the separator between them. */
  function JoinWith(pieces: seq<string>, sep: char): string
    requires |pieces| >= 1
  {
    if |pieces| == 1 then pieces[0] else pieces[0] + [sep] + JoinWith(pieces[1..], sep)
  }

  /** Splitting and joining again gives back the original string. */
  lemma {:induction false} SplitJoinRoundTrip(s: string, sep: char)
    ensures JoinWith(SplitAll(s, sep), sep) == s
  {
    if s != [] {
      var rest := SplitAll(s[1..], sep);
      SplitJoinRoundTrip(s[1..], sep);
      if s[0] == sep {
        assert SplitAll(s, sep) == [[]] + rest;
        assert ([[]] + rest)[1..] == rest;
      } else {
        var pieces := [[s[0]] + rest[0]] + rest[1..];
        assert SplitAll(s, sep) == pieces;
        if |rest| == 1 {
          assert JoinWith(rest, sep) == rest[0];
        } else {
          assert pieces[1..] == rest[1..];
          assert JoinWith(rest, sep) == rest[0] + [sep] + JoinWith(rest[1..], sep);
        }
      }
    }
  }

  /** Drops the empty strings at the end of `pieces`. */
  function DropTrailingEmpty(pieces: seq<string>): (r: seq<string>)
    ensures |r| <= |pieces| && r == pieces[..|r|]
    ensures r == [] || r[|r| - 1] != []
    ensures forall i :: |r| <= i < |pieces| ==> pieces[i] == []
  {
    if pieces == [] || pieces[|pieces| - 1] != [] then pieces
    else DropTrailingEmpty(pieces[..|pieces| - 1])
  }

  /**
   * `s.split(sep)` for a one-character separator that is not a regex
   * metacharacter: no occurrence gives `[s]`; otherwise trailing empty
   * strings are removed.
   */
  function JavaSplit(s: string, sep: char): (r: seq<string>)
  {
    if sep !in s then [s] else DropTrailingEmpty(SplitAll(s, sep))
  }

  /** When a split yields two or more fields, none of them contains the separator. */
  lemma JavaSplitFieldsAvoidSeparator(s: string, sep: char, i: nat)
    requires 2 <= |JavaSplit(s, sep)| && i < |JavaSplit(s, sep)|
    ensures forall k :: 0 <= k < |JavaSplit(s, sep)[i]| ==> JavaSplit(s, sep)[i][k] != sep
  {
    var all := SplitAll(s, sep);
    if sep in s {
      var r := DropTrailingEmpty(all);
      assert JavaSplit(s, sep)[i] == r[i] == all[i];
      assert all[i] in all;
    }
  }

  /** When a split yields two or more fields, the last one is not empty. */
  lemma {:induction false} JavaSplitLastNonEmpty(s: string, sep: char)
    ensures |JavaSplit(s, sep)| >= 2 ==> JavaSplit(s, sep)[|JavaSplit(s, sep)| - 1] != []
  {
    if sep in s {
      assert JavaSplit(s, sep) == DropTrailingEmpty(SplitAll(s, sep));
    } else {
      assert JavaSplit(s, sep) == [s];
    }
  }

  /** `s.replace(from, to)` for single characters. */
  function ReplaceChar(s: string, from: char, to: char): (r: string)
    ensures |r| == |s|
    ensures forall i :: 0 <= i < |s| ==> r[i] == if s[i] == from then to else s[i]
  {
    if s == [] then [] else [if s[0] == from then to else s[0]] + ReplaceChar(s[1..], from, to)
  }

  /** `pattern` occurs in `s` starting at position `i`. */
  predicate OccursAt(s: string, pattern: string, i: int)
  {
    0 <= i && i + |pattern| <= |s| && s[i..i + |pattern|] == pattern
  }

  /**
   * `s.replace(target, replacement)` for a non-empty target: scans left to
   * right and replaces every non-overlapping occurrence.
   */
  function ReplaceAll(s: string, target: string, replacement: string): string
    requires |target| > 0
    decreases |s|
  {
    if |s| < |target| then s
    else if s[..|target|] == target then replacement + ReplaceAll(s[|target|..], target, replacement)
    else [s[0]] + ReplaceAll(s[1..], target, replacement)
  }

  /** Without an occurrence of the target, `replace` returns its input. */
  lemma {:induction false} ReplaceAllNoOccurrence(s: string, target: string, replacement: string)
    requires |target| > 0
    requires forall i :: !OccursAt(s, target, i)
    ensures ReplaceAll(s, target, replacement) == s
    decreases |s|
  {
    if |s| >= |target| {
      assert !OccursAt(s, target, 0);
      forall i | OccursAt(s[1..], target, i) ensures OccursAt(s, target, i + 1) {
        assert s[i + 1..i + 1 + |target|] == s[1..][i..i + |target|];
      }
      ReplaceAllNoOccurrence(s[1..], target, replacement);
    }
  }

  /** Replacing the target by itself changes nothing. */
  lemma {:induction false} ReplaceAllBySelf(s: string, target: string)
    requires |target| > 0
    ensures ReplaceAll(s, target, target) == s
    decreases |s|
  {
    if |s| >= |target| {
      if s[..|target|] == target {
        ReplaceAllBySelf(s[|target|..], target);
        assert s == s[..|target|] + s[|target|..];
      } else {
        ReplaceAllBySelf(s[1..], target);
        assert s == [s[0]] + s[1..];
      }
    }
  }

  /** A leading occurrence is replaced and the rest is processed after it. */
  lemma ReplaceAllLeading(target: string, rest: string, replacement: string)
    requires |target| > 0
    ensures ReplaceAll(target + rest, target, replacement) == replacement + ReplaceAll(rest, target, replacement)
  {
    var s := target + rest;
    assert s[..|target|] == target;
    assert s[|target|..] == rest;
  }

  /** Decimal digits of a natural number, as `Integer.toString` writes them. */
  function NatToString(n: nat): (r: string)
    ensures |r| >= 1
    ensures forall i :: 0 <= i < |r| ==> '0' <= r[i] <= '9'
    decreases n
  {
    if n < 10 then [Digit(n)] else NatToString(n / 10) + [Digit(n % 10)]
  }

  function Digit(d: nat): (c: char)
    requires d < 10
    ensures '0' <= c <= '9'
  {
    ['0', '1', '2', '3', '4', '5', '6', '7', '8', '9'][d]
  }
}
