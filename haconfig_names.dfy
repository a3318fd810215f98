/** How haconfig derives names from Go field names (haconfig/config.go):
    the snake_case conversion, the environment-variable name of a leaf, the
    prefix handed to nested structs and the dotted path that validation
    reports. */
module HaconfigNames {
  import opened GoStrings

  /** [a-z0-9], the first group of the first pattern. */
  predicate LowerOrDigit(c: char) { IsLower(c) || IsDigit(c) }

  // ---------------------------------------------------------------------
  // First pass: ReplaceAllString(`([a-z0-9])([A-Z])`, `${1}_${2}`)
  // ---------------------------------------------------------------------

  /** A match of the first replacement starts at position i: a
      lower-case letter or digit followed by an upper-case letter. */
  predicate LowerUpperAt(s: string, i: nat)
  {
    i + 1 < |s| && LowerOrDigit(s[i]) && IsUpper(s[i + 1])
  }

  /** What one turn of the scan at i emits. */
  function LowerUpperTurn(s: string, i: nat): string
    requires i < |s|
  {
    if LowerUpperAt(s, i) then [s[i], '_', s[i + 1]] else [s[i]]
  }

  /** Where the scan resumes: after the match, or at the next character. */
  function LowerUpperNext(s: string, i: nat): (n: nat)
    requires i < |s|
    ensures i < n <= |s|
  {
    if LowerUpperAt(s, i) then i + 2 else i + 1
  }

  /** The first replacement, scanning left to right from position i: a
      match is replaced and the scan resumes after it. */
  function LowerUpperPassFrom(s: string, i: nat): (r: string)
    requires i <= |s|
    decreases |s| - i
  {
    if i == |s| then [] else LowerUpperTurn(s, i) + LowerUpperPassFrom(s, LowerUpperNext(s, i))
  }

  function LowerUpperPass(s: string): (r: string)
  {
    LowerUpperPassFrom(s, 0)
  }

  /** Position i of s starts a word after a lower-case letter or digit. */
  predicate Boundary1(s: string, i: int)
  {
    1 <= i < |s| && LowerOrDigit(s[i - 1]) && IsUpper(s[i])
  }

  /** Reference definition: s from position i on, with '_' put before every
      position that is a first-pass boundary. */
  function InsertAtBoundary1(s: string, i: nat): string
    decreases |s| - i
  {
    if i >= |s| then []
    else if Boundary1(s, i) then ['_', s[i]] + InsertAtBoundary1(s, i + 1)
    else [s[i]] + InsertAtBoundary1(s, i + 1)
  }

  /** The first reference, read one turn of the scan at a time. */
  lemma ReferenceTurn1(s: string, i: nat)
    requires i < |s|
    requires !Boundary1(s, i)
    ensures InsertAtBoundary1(s, i) == LowerUpperTurn(s, i) + InsertAtBoundary1(s, LowerUpperNext(s, i))
    ensures !Boundary1(s, LowerUpperNext(s, i))
  {
    if LowerUpperAt(s, i) {
      ReferenceMatchTurn1(s, i);
    }
  }

  lemma ReferenceMatchTurn1(s: string, i: nat)
    requires i < |s| && LowerUpperAt(s, i)
    ensures InsertAtBoundary1(s, i) == [s[i], '_', s[i + 1]] + InsertAtBoundary1(s, i + 2)
  {
    var tail := InsertAtBoundary1(s, i + 2);
    assert InsertAtBoundary1(s, i + 1) == ['_', s[i + 1]] + tail;
    Regroup12(s[i], '_', s[i + 1], tail);
  }

  /** [a] + ([b, c] + t) regrouped. */
  lemma Regroup12(a: char, b: char, c: char, t: string)
    ensures [a] + ([b, c] + t) == [a, b, c] + t
  {
  }

  /** [a, b] + ([c] + t) regrouped. */
  lemma Regroup21(a: char, b: char, c: char, t: string)
    ensures [a, b] + ([c] + t) == [a, b, c] + t
  {
  }

  lemma AppendAssoc(a: string, b: string, c: string)
    ensures a + (b + c) == a + b + c
  {
  }

  lemma {:induction false} LowerUpperPassSuffix(s: string, i: nat)
    requires i <= |s|
    requires !Boundary1(s, i)
    ensures LowerUpperPassFrom(s, i) == InsertAtBoundary1(s, i)
    decreases |s| - i
  {
    if i < |s| {
      ReferenceTurn1(s, i);
      LowerUpperPassSuffix(s, LowerUpperNext(s, i));
    }
  }

  /** The left-to-right scan puts '_' exactly at the first-pass boundaries. */
  lemma LowerUpperPassIsInsertion(s: string)
    ensures LowerUpperPass(s) == InsertAtBoundary1(s, 0)
  {
    LowerUpperPassSuffix(s, 0);
  }

  // ---------------------------------------------------------------------
  // Second pass: ReplaceAllString(`([A-Z]+)([A-Z][a-z])`, `${1}_${2}`)
  // ---------------------------------------------------------------------

  /** Length of the run of upper-case letters starting at position i. */
  function UpperRunAt(s: string, i: nat): (n: nat)
    requires i <= |s|
    ensures i + n <= |s|
    decreases |s| - i
  {
    if i < |s| && IsUpper(s[i]) then 1 + UpperRunAt(s, i + 1) else 0
  }

  /** The run is upper-case and is not followed by a capital. */
  lemma {:induction false} UpperRunSpec(s: string, i: nat)
    requires i <= |s|
    ensures forall k :: i <= k < i + UpperRunAt(s, i) ==> IsUpper(s[k])
    ensures i + UpperRunAt(s, i) < |s| ==> !IsUpper(s[i + UpperRunAt(s, i)])
    decreases |s| - i
  {
    if i < |s| && IsUpper(s[i]) {
      UpperRunSpec(s, i + 1);
    }
  }

  /** A match of the second replacement starts at position i: a match
      can only start at an upper-case letter, and the greedy run [A-Z]+
      backs off by one letter so that the last capital and the lower-case
      letter after it form [A-Z][a-z]. So a match starts at i exactly when
      the upper-case run there has at least two letters and is followed by
      a lower-case letter. */
  predicate AcronymAt(s: string, i: nat)
    requires i < |s|
  {
    var e := UpperRunAt(s, i);
    e >= 2 && i + e < |s| && IsLower(s[i + e])
  }

  /** What one turn of the scan at i emits: the match rewritten as
      ${1}_${2}, or the character copied. */
  function AcronymTurn(s: string, i: nat): string
    requires i < |s|
  {
    var e := UpperRunAt(s, i);
    if AcronymAt(s, i) then s[i..i + e - 1] + ['_', s[i + e - 1], s[i + e]] else [s[i]]
  }

  /** Where the scan resumes: after the lower-case letter ending a match,
      or at the next character. */
  function AcronymNext(s: string, i: nat): (n: nat)
    requires i < |s|
    ensures i < n <= |s|
  {
    if AcronymAt(s, i) then i + UpperRunAt(s, i) + 1 else i + 1
  }

  /** The second replacement, scanning s from position i. */
  function AcronymPassFrom(s: string, i: nat): (r: string)
    requires i <= |s|
    decreases |s| - i
  {
    if i == |s| then [] else AcronymTurn(s, i) + AcronymPassFrom(s, AcronymNext(s, i))
  }

  function AcronymPass(s: string): (r: string)
  {
    AcronymPassFrom(s, 0)
  }

  /** Position i of s holds the last capital of an acronym that a
      capitalised word follows. */
  predicate Boundary2(s: string, i: int)
  {
    1 <= i && i + 1 < |s| && IsUpper(s[i - 1]) && IsUpper(s[i]) && IsLower(s[i + 1])
  }

  /** Reference definition: s from position i on, with '_' before every
      second-pass boundary. */
  function InsertAtBoundary2(s: string, i: nat): string
    decreases |s| - i
  {
    if i >= |s| then []
    else if Boundary2(s, i) then ['_', s[i]] + InsertAtBoundary2(s, i + 1)
    else [s[i]] + InsertAtBoundary2(s, i + 1)
  }

  /** Over a stretch without boundaries the reference copies the text. */
  lemma {:induction false} NoBoundary2Stretch(s: string, i: nat, j: nat)
    requires i <= j <= |s|
    requires forall k :: i <= k < j ==> !Boundary2(s, k)
    ensures InsertAtBoundary2(s, i) == s[i..j] + InsertAtBoundary2(s, j)
    decreases j - i
  {
    if i < j {
      NoBoundary2Stretch(s, i + 1, j);
      InsertAtBoundary2Copy(s, i);
      AppendAssoc([s[i]], s[i + 1..j], InsertAtBoundary2(s, j));
      assert s[i..j] == [s[i]] + s[i + 1..j];
    } else {
      assert s[i..j] == [];
    }
  }

  /** The reference at the end of a second-pass match: '_' goes before the
      last capital s[end - 1] and nowhere else up to s[end]. */
  lemma AcronymMatchEnd(s: string, end: nat)
    requires 2 <= end < |s|
    requires IsUpper(s[end - 2]) && IsUpper(s[end - 1]) && IsLower(s[end])
    ensures InsertAtBoundary2(s, end - 1) == ['_', s[end - 1], s[end]] + InsertAtBoundary2(s, end + 1)
  {
    var rest := InsertAtBoundary2(s, end + 1);
    InsertAtBoundary2Copy(s, end);
    assert InsertAtBoundary2(s, end - 1) == ['_', s[end - 1]] + InsertAtBoundary2(s, end);
    Regroup21('_', s[end - 1], s[end], rest);
  }

  /** The reference over one second-pass match: the upper-case run
      s[i..end] (two letters or more) followed by the lower-case s[end]. */
  lemma AcronymMatchReference(s: string, i: nat, end: nat)
    requires i + 2 <= end < |s|
    requires !Boundary2(s, i)
    requires forall k :: i <= k < end ==> IsUpper(s[k])
    requires IsLower(s[end])
    ensures InsertAtBoundary2(s, i) == s[i..end - 1] + ['_', s[end - 1], s[end]] + InsertAtBoundary2(s, end + 1)
  {
    RunHasNoBoundary2(s, i, end);
    NoBoundary2Stretch(s, i, end - 1);
    assert IsUpper(s[end - 2]) && IsUpper(s[end - 1]);
    AcronymMatchEnd(s, end);
    AppendAssoc(s[i..end - 1], ['_', s[end - 1], s[end]], InsertAtBoundary2(s, end + 1));
  }

  /** Inside an upper-case run the only boundary can be its last capital. */
  lemma RunHasNoBoundary2(s: string, i: nat, end: nat)
    requires i + 2 <= end < |s|
    requires !Boundary2(s, i)
    requires forall k :: i <= k < end ==> IsUpper(s[k])
    ensures forall k :: i <= k < end - 1 ==> !Boundary2(s, k)
  {
    forall k | i <= k < end - 1
      ensures !Boundary2(s, k)
    {
      if k > i { assert IsUpper(s[k + 1]); }
    }
  }

  /** The reference, read one turn of the scan at a time. */
  lemma ReferenceTurn(s: string, i: nat)
    requires i < |s|
    requires !Boundary2(s, i)
    ensures InsertAtBoundary2(s, i) == AcronymTurn(s, i) + InsertAtBoundary2(s, AcronymNext(s, i))
    ensures !Boundary2(s, AcronymNext(s, i))
  {
    if AcronymAt(s, i) {
      ReferenceMatchTurn(s, i);
    } else {
      ReferenceCopyTurn(s, i);
    }
  }

  lemma ReferenceMatchTurn(s: string, i: nat)
    requires i < |s| && AcronymAt(s, i)
    requires !Boundary2(s, i)
    ensures InsertAtBoundary2(s, i) == AcronymTurn(s, i) + InsertAtBoundary2(s, AcronymNext(s, i))
    ensures !Boundary2(s, AcronymNext(s, i))
  {
    var end := i + UpperRunAt(s, i);
    UpperRunSpec(s, i);
    AcronymMatchReference(s, i, end);
  }

  lemma ReferenceCopyTurn(s: string, i: nat)
    requires i < |s| && !AcronymAt(s, i)
    requires !Boundary2(s, i)
    ensures InsertAtBoundary2(s, i) == AcronymTurn(s, i) + InsertAtBoundary2(s, AcronymNext(s, i))
    ensures !Boundary2(s, AcronymNext(s, i))
  {
    if Boundary2(s, i + 1) {
      UpperRunOfTwo(s, i);
    }
    InsertAtBoundary2Copy(s, i);
  }

  lemma {:induction false} AcronymPassSuffix(s: string, i: nat)
    requires i <= |s|
    requires !Boundary2(s, i)
    ensures AcronymPassFrom(s, i) == InsertAtBoundary2(s, i)
    decreases |s| - i
  {
    if i < |s| {
      ReferenceTurn(s, i);
      AcronymPassSuffix(s, AcronymNext(s, i));
    }
  }

  /** Away from a boundary the reference copies one character. */
  lemma InsertAtBoundary2Copy(s: string, i: nat)
    requires i < |s| && !Boundary2(s, i)
    ensures InsertAtBoundary2(s, i) == [s[i]] + InsertAtBoundary2(s, i + 1)
  {
  }

  /** Two capitals and a lower-case letter make an upper-case run of
      exactly two. */
  lemma UpperRunOfTwo(s: string, i: nat)
    requires Boundary2(s, i + 1)
    ensures UpperRunAt(s, i) == 2
  {
    assert !IsUpper(s[i + 2]);
    assert UpperRunAt(s, i + 2) == 0;
  }

  /** The scan puts '_' exactly at the second-pass boundaries. */
  lemma AcronymPassIsInsertion(s: string)
    ensures AcronymPass(s) == InsertAtBoundary2(s, 0)
  {
    AcronymPassSuffix(s, 0);
  }

  // ---------------------------------------------------------------------
  // toSnakeCase
  // ---------------------------------------------------------------------

  /** toSnakeCase: the two passes in order, then lower-casing. */
  function ToSnakeCase(s: string): (r: string)
    ensures s == "" ==> r == ""
    ensures forall k :: 0 <= k < |r| ==> !IsUpper(r[k])
  {
    if s == "" then "" else ToLower(AcronymPass(LowerUpperPass(s)))
  }

  /** toSnakeCase is the two reference insertions followed by lower-casing. */
  lemma ToSnakeCaseIsInsertion(s: string)
    ensures ToSnakeCase(s) == ToLower(InsertAtBoundary2(InsertAtBoundary1(s, 0), 0))
  {
    LowerUpperPassIsInsertion(s);
    AcronymPassIsInsertion(LowerUpperPass(s));
  }

  lemma {:induction false} LowerUpperPassFromNoUpper(s: string, i: nat)
    requires i <= |s|
    requires forall k :: 0 <= k < |s| ==> !IsUpper(s[k])
    ensures LowerUpperPassFrom(s, i) == s[i..]
    decreases |s| - i
  {
    if i < |s| {
      LowerUpperPassFromNoUpper(s, i + 1);
      assert s[i..] == [s[i]] + s[i + 1..];
    }
  }

  lemma LowerUpperPassNoUpper(s: string)
    requires forall k :: 0 <= k < |s| ==> !IsUpper(s[k])
    ensures LowerUpperPass(s) == s
  {
    LowerUpperPassFromNoUpper(s, 0);
  }

  lemma {:induction false} AcronymPassFromNoUpper(s: string, i: nat)
    requires i <= |s|
    requires forall k :: 0 <= k < |s| ==> !IsUpper(s[k])
    ensures AcronymPassFrom(s, i) == s[i..]
    decreases |s| - i
  {
    if i < |s| {
      AcronymPassFromNoUpper(s, i + 1);
      assert s[i..] == [s[i]] + s[i + 1..];
    }
  }

  lemma AcronymPassNoUpper(s: string)
    requires forall k :: 0 <= k < |s| ==> !IsUpper(s[k])
    ensures AcronymPass(s) == s
  {
    AcronymPassFromNoUpper(s, 0);
  }

  lemma ToLowerNoUpper(s: string)
    requires forall k :: 0 <= k < |s| ==> !IsUpper(s[k])
    ensures ToLower(s) == s
  {
  }

  /** The conversion is idempotent: a snake_case name is its own snake case. */
  lemma ToSnakeCaseIdempotent(s: string)
    ensures ToSnakeCase(ToSnakeCase(s)) == ToSnakeCase(s)
  {
    var r := ToSnakeCase(s);
    if r != "" {
      LowerUpperPassNoUpper(r);
      AcronymPassNoUpper(r);
      ToLowerNoUpper(r);
    }
  }

  /** Neither pass shortens a name: they only insert. */
  lemma {:induction false} LowerUpperPassFromLength(s: string, i: nat)
    requires i <= |s|
    ensures |LowerUpperPassFrom(s, i)| >= |s| - i
    decreases |s| - i
  {
    if i < |s| {
      LowerUpperPassFromLength(s, LowerUpperNext(s, i));
    }
  }

  lemma {:induction false} AcronymPassFromLength(s: string, i: nat)
    requires i <= |s|
    ensures |AcronymPassFrom(s, i)| >= |s| - i
    decreases |s| - i
  {
    if i < |s| {
      AcronymPassFromLength(s, AcronymNext(s, i));
    }
  }

  /** Empty names stay empty and no other name does. */
  lemma ToSnakeCaseEmpty(s: string)
    ensures ToSnakeCase(s) == "" <==> s == ""
  {
    LowerUpperPassFromLength(s, 0);
    AcronymPassFromLength(LowerUpperPass(s), 0);
  }

  // ---------------------------------------------------------------------
  // getEnvName, buildPrefix, buildFieldPath
  // ---------------------------------------------------------------------

  /** p + "_" + x, or x alone when p is empty. */
  function Underscored(p: string, x: string): (r: string)
    ensures p == "" ==> r == x
    ensures p != "" ==> r == p + "_" + x
  {
    if p == "" then x else p + "_" + x
  }

  /** buildPrefix: the prefix handed to a nested struct. */
  function BuildPrefix(currentPrefix: string, fieldName: string): (r: string)
    ensures currentPrefix == "" ==> r == ToSnakeCase(fieldName)
    ensures currentPrefix != "" ==> r == currentPrefix + "_" + ToSnakeCase(fieldName)
  {
    Underscored(currentPrefix, ToSnakeCase(fieldName))
  }

  /** getEnvName: snake name, then the ancestors' prefix, then the global
      prefix, upper-cased. */
  function EnvName(envPrefix: string, fieldName: string, prefix: string): (r: string)
    ensures r == ToUpper(Underscored(envPrefix, BuildPrefix(prefix, fieldName)))
    ensures forall k :: 0 <= k < |r| ==> !IsLower(r[k])
  {
    var envName := ToSnakeCase(fieldName);
    var withPrefix := if prefix != "" then prefix + "_" + envName else envName;
    var withGlobal := if envPrefix != "" then envPrefix + "_" + withPrefix else withPrefix;
    ToUpper(withGlobal)
  }

  /** buildFieldPath: the dotted path reported by validation. */
  function BuildFieldPath(prefix: string, fieldName: string): (r: string)
    ensures prefix == "" ==> r == fieldName
    ensures prefix != "" ==> r == prefix + "." + fieldName
  {
    if prefix == "" then fieldName else prefix + "." + fieldName
  }

  /** The prefix of a field nested under the struct fields `path`
      (outermost first), built one level at a time. */
  function PrefixOf(path: seq<string>): string
  {
    if path == [] then "" else BuildPrefix(PrefixOf(path[..|path| - 1]), path[|path| - 1])
  }

  /** The dotted path of a field nested under `path`. */
  function FieldPathOf(path: seq<string>): string
  {
    if path == [] then "" else BuildFieldPath(FieldPathOf(path[..|path| - 1]), path[|path| - 1])
  }

  function SnakeAll(path: seq<string>): (r: seq<string>)
    ensures |r| == |path|
    ensures forall k :: 0 <= k < |path| ==> r[k] == ToSnakeCase(path[k])
  {
    if path == [] then [] else SnakeAll(path[..|path| - 1]) + [ToSnakeCase(path[|path| - 1])]
  }

  lemma {:induction false} JoinSnoc(parts: seq<string>, x: string, sep: string)
    requires parts != []
    ensures Join(parts + [x], sep) == Join(parts, sep) + sep + x
    decreases |parts|
  {
    if |parts| > 1 {
      assert (parts + [x])[1..] == parts[1..] + [x];
      JoinSnoc(parts[1..], x, sep);
    }
  }

  /** The ancestors' prefix is their snake names joined by '_' (Go field
      names are never empty). */
  lemma {:induction false} PrefixOfIsJoin(path: seq<string>)
    requires forall k :: 0 <= k < |path| ==> path[k] != ""
    ensures PrefixOf(path) == Join(SnakeAll(path), "_")
    decreases |path|
  {
    if path != [] {
      var init := path[..|path| - 1];
      PrefixOfIsJoin(init);
      ToSnakeCaseEmpty(path[|path| - 1]);
      if init != [] {
        ToSnakeCaseEmpty(init[|init| - 1]);
        assert PrefixOf(init) != "" by {
          var s := SnakeAll(init);
          assert s == SnakeAll(init[..|init| - 1]) + [ToSnakeCase(init[|init| - 1])];
          if |s| == 1 {
            assert Join(s, "_") == s[0];
          } else {
            JoinSnoc(s[..|s| - 1], s[|s| - 1], "_");
            assert s[..|s| - 1] + [s[|s| - 1]] == s;
          }
        }
        JoinSnoc(SnakeAll(init), ToSnakeCase(path[|path| - 1]), "_");
      }
    }
  }

  /** The dotted path is the Go field names joined by '.'. */
  lemma {:induction false} FieldPathOfIsJoin(path: seq<string>)
    requires forall k :: 0 <= k < |path| ==> path[k] != ""
    ensures FieldPathOf(path) == Join(path, ".")
    decreases |path|
  {
    if path != [] {
      var init := path[..|path| - 1];
      FieldPathOfIsJoin(init);
      if init != [] {
        assert FieldPathOf(init) != "" by {
          if |init| == 1 {
          } else {
            JoinSnoc(init[..|init| - 1], init[|init| - 1], ".");
            assert init[..|init| - 1] + [init[|init| - 1]] == init;
          }
        }
        JoinSnoc(init, path[|path| - 1], ".");
        assert init + [path[|path| - 1]] == path;
      }
    }
  }
}
