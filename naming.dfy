/**
 * The module-naming policy of `RunMEtUncertainties._addModuleToSequence`:
 * fragments that are `None` or empty are skipped, every "selected" and then
 * every "clean" is deleted from each kept fragment, and the stripped fragments
 * are joined with a camel-case rule at each boundary.
 */
module Naming {
  import opened Wrappers

  /** Why a list of name fragments yields no name. */
  datatype NameError =
    | EmptyNameList   // the `ValueError("Empty list !!")` raised for an empty list
    | EmptyFragment   // the `IndexError` of `part[0]` on a fragment that stripping emptied

  // ---------------------------------------------------------------------------
  // Characters (ASCII case mapping only)
  // ---------------------------------------------------------------------------

  predicate IsLower(c: char) { 'a' <= c <= 'z' }

  predicate IsUpper(c: char) { 'A' <= c <= 'Z' }

  predicate IsDigit(c: char) { '0' <= c <= '9' }

  predicate IsLetter(c: char) { IsLower(c) || IsUpper(c) }

  /** `c.lower()` on one character. */
  function Lower(c: char): (r: char)
    ensures IsLetter(c) ==> IsLower(r)
    ensures IsUpper(c) ==> r as int - 'a' as int == c as int - 'A' as int  // the same letter
    ensures !IsUpper(c) ==> r == c
  {
    if IsUpper(c) then (c as int + 32) as char else c
  }

  /** `c.capitalize()` on one character: its upper-case form. */
  function Upper(c: char): (r: char)
    ensures IsLetter(c) ==> IsUpper(r)
    ensures IsLower(c) ==> r as int - 'A' as int == c as int - 'a' as int  // the same letter
    ensures !IsLower(c) ==> r == c
  {
    if IsLower(c) then (c as int - 32) as char else c
  }

  // ---------------------------------------------------------------------------
  // Stripping the "selected" and "clean" qualifiers
  // ---------------------------------------------------------------------------

  /** `s` holds `pat` at position `i`. */
  predicate OccursAt(s: string, pat: string, i: nat)
  {
    i + |pat| <= |s| && s[i..i + |pat|] == pat
  }

  /**
   * `s.replace(pat, "")`: scanning from the left, every non-overlapping
   * occurrence of `pat` is deleted; what the deletions bring together is not
   * scanned again.
   */
  function RemoveAll(s: string, pat: string): (r: string)
    requires pat != ""
    ensures |r| <= |s|
    decreases |s|
  {
    if |s| < |pat| then s
    else if s[..|pat|] == pat then RemoveAll(s[|pat|..], pat)
    else [s[0]] + RemoveAll(s[1..], pat)
  }

  /** The two replacements applied to every kept fragment, in the source's order. */
  function Strip(part: string): string
  {
    RemoveAll(RemoveAll(part, "selected"), "clean")
  }

  // ---------------------------------------------------------------------------
  // The camel-case join
  // ---------------------------------------------------------------------------

  /** A fragment the loop skips. */
  predicate Skipped(part: Option<string>)
  {
    part.None? || part.value == ""
  }

  /** The stripped forms of the fragments the loop does not skip, in order. */
  function Kept(parts: seq<Option<string>>): (ks: seq<string>)
    ensures |ks| <= |parts|
  {
    if parts == [] then []
    else
      var last := parts[|parts| - 1];
      Kept(parts[..|parts| - 1]) + (if Skipped(last) then [] else [Strip(last.value)])
  }

  /** No fragment of `fs` is empty. */
  predicate NonEmptyFragments(fs: seq<string>)
  {
    fs == [] || (NonEmptyFragments(fs[..|fs| - 1]) && fs[|fs| - 1] != "")
  }

  /** A fragment whose last character asks for an upper-case start of the next one. */
  predicate EndsLowerOrDigit(f: string)
  {
    f != "" && (IsLower(f[|f| - 1]) || IsDigit(f[|f| - 1]))
  }

  /**
   * The case given to the first character `c` of a stripped fragment: lower
   * for the first fragment; after a fragment `p`, upper when `p` ends in a
   * lower-case letter or a digit and lower otherwise.
   */
  function HeadCase(prev: Option<string>, c: char): char
  {
    match prev
    case None => Lower(c)
    case Some(p) => if EndsLowerOrDigit(p) then Upper(c) else Lower(c)
  }

  /** The first character of fragment `k` of `fs` in the joined name. */
  function Boundary(fs: seq<string>, k: nat): char
    requires k < |fs| && fs[k] != ""
  {
    HeadCase(if k == 0 then None else Some(fs[k - 1]), fs[k][0])
  }

  /** The name the loop builds from the stripped fragments `fs`. */
  function Join(fs: seq<string>): string
    requires NonEmptyFragments(fs)
  {
    if fs == [] then ""
    else
      var k := |fs| - 1;
      Join(fs[..k]) + [Boundary(fs, k)] + fs[k][1..]
  }

  /** The sum of the lengths of `fs`. */
  function TotalLength(fs: seq<string>): nat
  {
    if fs == [] then 0 else TotalLength(fs[..|fs| - 1]) + |fs[|fs| - 1]|
  }

  /**
   * The name `_addModuleToSequence` registers a module under, or the error it
   * raises before registering anything.
   */
  function ModuleName(parts: seq<Option<string>>): (r: Result<string, NameError>)
    ensures r == Failure(EmptyNameList) <==> parts == []
    ensures r.Success? <==> parts != [] && NonEmptyFragments(Kept(parts))
    ensures r.Success? ==> |r.value| == TotalLength(Kept(parts))
  {
    if parts == [] then Failure(EmptyNameList)
    else if !NonEmptyFragments(Kept(parts)) then Failure(EmptyFragment)
    else
      JoinLength(Kept(parts));
      Success(Join(Kept(parts)))
  }

  // ---------------------------------------------------------------------------
  // The loop of `_addModuleToSequence`
  // ---------------------------------------------------------------------------

  /**
   * Builds the name fragment by fragment, as the source's loop does, keeping
   * the last stripped fragment to decide the case at the next boundary.
   */
  method BuildModuleName(parts: seq<Option<string>>) returns (r: Result<string, NameError>)
    ensures r == ModuleName(parts)
  {
    if !(|parts| > 0) {
      return Failure(EmptyNameList);
    }
    var moduleName := "";
    var lastPart: Option<string> := None;
    ghost var kept: seq<string> := [];
    var i := 0;
    while i < |parts|
      invariant 0 <= i <= |parts|
      invariant kept == Kept(parts[..i])
      invariant NonEmptyFragments(kept)
      invariant moduleName == Join(kept)
      invariant lastPart == if kept == [] then None else Some(kept[|kept| - 1])
    {
      var part := parts[i];
      KeptPrefix(parts, i);
      if part.None? || part.value == "" {
        i := i + 1;
        continue;
      }
      var stripped := RemoveAll(part.value, "selected");
      stripped := RemoveAll(stripped, "clean");
      if stripped == "" {
        // `part[0]` on an empty string
        EmptiedFragmentFails(parts, i);
        return Failure(EmptyFragment);
      }
      var head := FragmentHead(lastPart, stripped[0]);
      AppendStep(kept, lastPart, stripped, head);
      moduleName := moduleName + [head] + stripped[1..];
      lastPart := Some(stripped);
      kept := kept + [stripped];
      i := i + 1;
    }
    assert parts[..i] == parts;
    r := Success(moduleName);
  }

  /**
   * The branch of the loop that chooses the case of a fragment's first
   * character from the fragment kept before it.
   */
  method FragmentHead(lastPart: Option<string>, c: char) returns (head: char)
    requires lastPart.Some? ==> lastPart.value != ""
    ensures head == HeadCase(lastPart, c)
    ensures lastPart.None? ==> head == Lower(c)
    ensures lastPart.Some? && IsLetter(c) ==> (IsUpper(head) <==> EndsLowerOrDigit(lastPart.value))
  {
    if lastPart.None? {
      head := Lower(c);
    } else if IsLower(lastPart.value[|lastPart.value| - 1]) || IsDigit(lastPart.value[|lastPart.value| - 1]) {
      head := Upper(c);
    } else {
      head := Lower(c);
    }
  }

  // ---------------------------------------------------------------------------
  // Lemmas
  // ---------------------------------------------------------------------------

  /** The name and the last kept fragment after one more fragment is appended. */
  lemma AppendStep(kept: seq<string>, lastPart: Option<string>, f: string, head: char)
    requires NonEmptyFragments(kept) && f != ""
    requires lastPart == if kept == [] then None else Some(kept[|kept| - 1])
    requires head == HeadCase(lastPart, f[0])
    ensures NonEmptyFragments(kept + [f])
    ensures Join(kept + [f]) == Join(kept) + [head] + f[1..]
    ensures (kept + [f])[|kept + [f]| - 1] == f
  {
    JoinSnoc(kept, f);
  }

  /** The kept fragments of one more part. */
  lemma KeptPrefix(parts: seq<Option<string>>, i: nat)
    requires i < |parts|
    ensures Kept(parts[..i + 1]) == Kept(parts[..i]) + (if Skipped(parts[i]) then [] else [Strip(parts[i].value)])
  {
    assert parts[..i + 1][..i] == parts[..i];
  }

  /** One more fragment: the kept list grows by its stripped form unless it is skipped. */
  lemma KeptSnoc(parts: seq<Option<string>>, part: Option<string>)
    ensures Kept(parts + [part]) == Kept(parts) + (if Skipped(part) then [] else [Strip(part.value)])
  {
    assert (parts + [part])[..|parts|] == parts;
  }

  /** One more stripped fragment: the name grows by that fragment with its boundary case. */
  lemma JoinSnoc(fs: seq<string>, f: string)
    requires NonEmptyFragments(fs) && f != ""
    ensures NonEmptyFragments(fs + [f])
    ensures Join(fs + [f]) == Join(fs) + [Boundary(fs + [f], |fs|)] + f[1..]
    ensures Boundary(fs + [f], |fs|) == HeadCase(if fs == [] then None else Some(fs[|fs| - 1]), f[0])
  {
    var gs := fs + [f];
    assert gs[..|fs|] == fs;
    if fs != [] {
      assert gs[|fs| - 1] == fs[|fs| - 1];
    }
  }

  /** A kept fragment that stripping empties makes the whole list unnameable. */
  lemma EmptiedFragmentFails(parts: seq<Option<string>>, i: nat)
    requires i < |parts| && !Skipped(parts[i]) && Strip(parts[i].value) == ""
    ensures ModuleName(parts) == Failure(EmptyFragment)
  {
    assert parts[..i + 1] == parts[..i] + [parts[i]];
    KeptSnoc(parts[..i], parts[i]);
    KeptOfPrefix(parts, i + 1);
    var k := |Kept(parts[..i])|;
    assert Kept(parts[..i + 1])[k] == "";
    assert Kept(parts)[k] == "";
    if NonEmptyFragments(Kept(parts)) {
      NonEmptyAt(Kept(parts), k);
    }
  }

  /** Every fragment of a list with no empty fragment is non-empty. */
  lemma {:induction false} NonEmptyAt(fs: seq<string>, k: nat)
    requires NonEmptyFragments(fs) && k < |fs|
    ensures fs[k] != ""
  {
    if k < |fs| - 1 {
      NonEmptyAt(fs[..|fs| - 1], k);
    }
  }

  /** The kept fragments of a prefix are a prefix of the kept fragments. */
  lemma {:induction false} KeptOfPrefix(parts: seq<Option<string>>, n: nat)
    requires n <= |parts|
    ensures Kept(parts[..n]) <= Kept(parts)
    decreases |parts|
  {
    if n < |parts| {
      var init := parts[..|parts| - 1];
      assert init[..n] == parts[..n];
      KeptOfPrefix(init, n);
    } else {
      assert parts[..n] == parts;
    }
  }

  lemma {:induction false} JoinLength(fs: seq<string>)
    requires NonEmptyFragments(fs)
    ensures |Join(fs)| == TotalLength(fs)
  {
    if fs != [] {
      JoinLength(fs[..|fs| - 1]);
    }
  }

  /**
   * Each kept fragment appears in the name at its offset: its first character
   * cased by the boundary rule, every later character copied unchanged.
   */
  lemma {:induction false} JoinAt(fs: seq<string>, k: nat, j: nat)
    requires NonEmptyFragments(fs) && k < |fs| && j < |fs[k]|
    ensures TotalLength(fs[..k]) + j < |Join(fs)|
    ensures Join(fs)[TotalLength(fs[..k]) + j] == if j == 0 then Boundary(fs, k) else fs[k][j]
  {
    var n := |fs| - 1;
    var init := fs[..n];
    JoinLength(init);
    JoinLength(fs);
    if k < n {
      assert init[..k] == fs[..k];
      assert init[k] == fs[k];
      assert k > 0 ==> init[k - 1] == fs[k - 1];
      assert Boundary(init, k) == Boundary(fs, k);
      JoinAt(init, k, j);
    } else {
      assert fs[..k] == init;
    }
  }

  /**
   * For a fragment that starts with a letter, the name has an upper-case
   * letter where it begins exactly when the fragment is not the first and the
   * previous stripped fragment ends in a lower-case letter or a digit.
   */
  lemma CamelCaseBoundary(fs: seq<string>, k: nat)
    requires NonEmptyFragments(fs) && k < |fs| && fs[k] != "" && IsLetter(fs[k][0])
    ensures TotalLength(fs[..k]) < |Join(fs)|
    ensures IsUpper(Join(fs)[TotalLength(fs[..k])]) <==> k > 0 && EndsLowerOrDigit(fs[k - 1])
    ensures k == 0 ==> Join(fs)[0] == Lower(fs[0][0])
  {
    JoinAt(fs, k, 0);
  }

  /**
   * A name can be formed exactly when the list is not empty and no fragment
   * that is kept is emptied by stripping.
   */
  lemma NameSucceedsIff(parts: seq<Option<string>>)
    ensures ModuleName(parts).Success? <==>
      parts != [] && forall i :: 0 <= i < |parts| && !Skipped(parts[i]) ==> Strip(parts[i].value) != ""
  {
    KeptNonEmptyIff(parts);
  }

  lemma {:induction false} KeptNonEmptyIff(parts: seq<Option<string>>)
    ensures NonEmptyFragments(Kept(parts)) <==>
      forall i :: 0 <= i < |parts| && !Skipped(parts[i]) ==> Strip(parts[i].value) != ""
    decreases |parts|
  {
    if parts != [] {
      var init := parts[..|parts| - 1];
      var last := parts[|parts| - 1];
      KeptNonEmptyIff(init);
      assert parts == init + [last];
      KeptSnoc(init, last);
      var ks := Kept(init);
      if !Skipped(last) {
        var gs := ks + [Strip(last.value)];
        assert gs[..|ks|] == ks;
      } else {
        assert Kept(parts) == ks;
      }
      forall i | 0 <= i < |init| ensures init[i] == parts[i] { }
    }
  }

  /**
   * A fragment whose first character is not the first character of either
   * deleted word, or that is too short to hold "selected", keeps its first
   * character when stripped.
   */
  lemma StripKeepsHead(s: string)
    requires s != "" && s[0] != 'c' && (|s| < 8 || s[0] != 's')
    ensures Strip(s) != "" && Strip(s)[0] == s[0]
  {
    RemoveAllKeepsHead(s, "selected");
    RemoveAllKeepsHead(RemoveAll(s, "selected"), "clean");
  }

  /** A non-empty list whose fragments are all `None` or empty names nothing: "". */
  lemma {:induction false} AllSkippedNamesEmpty(parts: seq<Option<string>>)
    requires parts != []
    requires forall k :: 0 <= k < |parts| ==> Skipped(parts[k])
    ensures ModuleName(parts) == Success("")
  {
    NothingKept(parts);
  }

  lemma {:induction false} NothingKept(parts: seq<Option<string>>)
    requires forall k :: 0 <= k < |parts| ==> Skipped(parts[k])
    ensures Kept(parts) == []
  {
    if parts != [] {
      NothingKept(parts[..|parts| - 1]);
    }
  }

  // ---------------------------------------------------------------------------
  // Stripping
  // ---------------------------------------------------------------------------

  /** A string in which `pat` never occurs is left as it is. */
  lemma {:induction false} RemoveAllAbsent(s: string, pat: string)
    requires pat != ""
    requires forall i: nat :: !OccursAt(s, pat, i)
    ensures RemoveAll(s, pat) == s
    decreases |s|
  {
    if |s| >= |pat| {
      assert !OccursAt(s, pat, 0);
      forall i: nat ensures !OccursAt(s[1..], pat, i) {
        assert !OccursAt(s, pat, i + 1);
        if i + |pat| <= |s[1..]| {
          assert s[1..][i..i + |pat|] == s[i + 1..i + 1 + |pat|];
        }
      }
      RemoveAllAbsent(s[1..], pat);
      assert [s[0]] + s[1..] == s;
    }
  }

  /**
   * The leftmost occurrence of `pat` is deleted and the scan resumes after it:
   * what precedes it is kept and what follows is stripped in turn.
   */
  lemma {:induction false} RemoveAllLeftmost(a: string, pat: string, b: string)
    requires pat != ""
    requires forall i: nat :: i < |a| ==> !OccursAt(a + pat + b, pat, i)
    ensures RemoveAll(a + pat + b, pat) == a + RemoveAll(b, pat)
    decreases |a|
  {
    var s := a + pat + b;
    if a == [] {
      assert s == pat + b;
      assert s[..|pat|] == pat;
      assert s[|pat|..] == b;
    } else {
      assert !OccursAt(s, pat, 0);
      var a' := a[1..];
      assert s[1..] == a' + pat + b;
      forall i: nat | i < |a'| ensures !OccursAt(a' + pat + b, pat, i) {
        assert !OccursAt(s, pat, i + 1);
        assert (a' + pat + b)[i..i + |pat|] == s[i + 1..i + 1 + |pat|];
      }
      RemoveAllLeftmost(a', pat, b);
      assert [s[0]] + (a' + RemoveAll(b, pat)) == a + RemoveAll(b, pat);
    }
  }

  /** No position with room for `pat` starts with the first character of `pat`. */
  predicate NoCandidate(s: string, pat: string)
    requires pat != ""
    decreases |s|
  {
    |s| < |pat| || (s[0] != pat[0] && NoCandidate(s[1..], pat))
  }

  lemma {:induction false} NoCandidateUnchanged(s: string, pat: string)
    requires pat != "" && NoCandidate(s, pat)
    ensures RemoveAll(s, pat) == s
    decreases |s|
  {
    if |s| >= |pat| {
      NoCandidateUnchanged(s[1..], pat);
      assert [s[0]] + s[1..] == s;
    }
  }

  /** A character that does not occur in `pat` survives the deletion of `pat`. */
  lemma {:induction false} RemoveAllKeepsChar(s: string, pat: string, x: char)
    requires pat != "" && x in s && x !in pat
    ensures x in RemoveAll(s, pat)
    decreases |s|
  {
    if |s| >= |pat| {
      if s[..|pat|] == pat {
        assert s == s[..|pat|] + s[|pat|..];
        assert x in s[|pat|..];
        RemoveAllKeepsChar(s[|pat|..], pat, x);
      } else if s[0] != x {
        assert s == [s[0]] + s[1..];
        RemoveAllKeepsChar(s[1..], pat, x);
      }
    }
  }

  /** A character that is in neither deleted word survives stripping, so the fragment is not emptied. */
  lemma StripKeepsChar(s: string, x: char)
    requires x in s && x !in "selected" && x !in "clean"
    ensures x in Strip(s) && Strip(s) != ""
  {
    RemoveAllKeepsChar(s, "selected", x);
    RemoveAllKeepsChar(RemoveAll(s, "selected"), "clean", x);
  }

  /** A string that does not start with the first character of `pat` keeps its first character. */
  lemma RemoveAllKeepsHead(s: string, pat: string)
    requires pat != "" && s != "" && (|s| < |pat| || s[0] != pat[0])
    ensures RemoveAll(s, pat) != "" && RemoveAll(s, pat)[0] == s[0]
  {
  }

  /** Deleting "selected" from "cleselectedan" brings a "clean" together. */
  lemma SelectedRemovalJoinsClean()
    ensures RemoveAll("cleselectedan", "selected") == "clean"
  {
    var s := "cleselectedan";
    assert s == "cle" + "selected" + "an";
    forall i: nat | i < 3 ensures !OccursAt(s, "selected", i) {
      assert s[i..i + 8][0] == s[i];
    }
    RemoveAllLeftmost("cle", "selected", "an");
    NoCandidateUnchanged("an", "selected");
    assert "cle" + "an" == "clean";
  }

  /**
   * Stripping deletes "selected" before "clean", so a "clean" that the first
   * deletion brings together is deleted too.
   */
  lemma StripOrderMatters()
    ensures Strip("cleselectedan") == ""
  {
    SelectedRemovalJoinsClean();
    assert "clean" == [] + "clean" + [];
    RemoveAllLeftmost([], "clean", []);
  }

  /** A deletion that brings a new "clean" together is not scanned again. */
  lemma RemovalNotRescanned()
    ensures RemoveAll("clecleanan", "clean") == "clean"
  {
    var s := "clecleanan";
    assert s == "cle" + "clean" + "an";
    forall i: nat | i < 3 ensures !OccursAt(s, "clean", i) {
      assert s[i..i + 5][0] == s[i];
      assert s[i..i + 5][3] == s[i + 3];
    }
    RemoveAllLeftmost("cle", "clean", "an");
    assert "cle" + "an" == "clean";
  }

  lemma CleanPatJetsHasNoSelected()
    ensures RemoveAll("cleanPatJets", "selected") == "cleanPatJets"
  {
    NoCandidateUnchanged("cleanPatJets", "selected");
  }

  lemma CleanRemovedFromCleanPatJets()
    ensures RemoveAll("cleanPatJets", "clean") == "PatJets"
  {
    assert "cleanPatJets" == [] + "clean" + "PatJets";
    RemoveAllLeftmost([], "clean", "PatJets");
    NoCandidateUnchanged("PatJets", "clean");
  }

  /** The default jet collection loses its "clean" qualifier. */
  lemma StripCleanPatJets()
    ensures Strip("cleanPatJets") == "PatJets"
  {
    CleanPatJetsHasNoSelected();
    CleanRemovedFromCleanPatJets();
  }

  // ---------------------------------------------------------------------------
  // Names of three fragments, as the tool builds them
  // ---------------------------------------------------------------------------

  lemma KeptThree(a: string, c: string, b: string)
    requires a != "" && b != ""
    ensures Kept([Some(a), Some(c), Some(b)]) ==
      if c == "" then [Strip(a), Strip(b)] else [Strip(a), Strip(c), Strip(b)]
  {
    var p0, p1, p2 := Some(a), Some(c), Some(b);
    KeptSnoc([], p0);
    KeptSnoc([p0], p1);
    KeptSnoc([p0, p1], p2);
    assert [p0, p1, p2] == [p0, p1] + [p2] && [p0, p1] == [p0] + [p1] && [p0] == [] + [p0];
  }

  /**
   * A name of the shape `[a, c, b]` with outer fragments that survive
   * stripping: skipping `c` when it is empty, failing when stripping empties
   * it, and otherwise the join of the three stripped fragments.
   */
  lemma ThreePartName(a: string, c: string, b: string)
    requires a != "" && b != "" && Strip(a) != "" && Strip(b) != ""
    ensures var name := ModuleName([Some(a), Some(c), Some(b)]);
      if c == "" then
        NonEmptyFragments([Strip(a), Strip(b)]) && name == Success(Join([Strip(a), Strip(b)]))
      else if Strip(c) == "" then
        name == Failure(EmptyFragment)
      else
        NonEmptyFragments([Strip(a), Strip(c), Strip(b)]) && name == Success(Join([Strip(a), Strip(c), Strip(b)]))
  {
    KeptThree(a, c, b);
    var a', b' := Strip(a), Strip(b);
    if c == "" {
      JoinSnoc([], a');
      assert [a'] == [] + [a'];
      JoinSnoc([a'], b');
      assert [a', b'] == [a'] + [b'];
    } else if Strip(c) != "" {
      JoinThree(a', Strip(c), b');
    } else {
      assert Kept([Some(a), Some(c), Some(b)])[1] == "";
      if NonEmptyFragments(Kept([Some(a), Some(c), Some(b)])) {
        NonEmptyAt(Kept([Some(a), Some(c), Some(b)]), 1);
      }
    }
  }

  /** The join of three fragments, boundary by boundary. */
  lemma JoinThree(x: string, y: string, z: string)
    requires x != "" && y != "" && z != ""
    ensures NonEmptyFragments([x, y, z])
    ensures Join([x, y, z]) ==
      [Lower(x[0])] + x[1..] + [HeadCase(Some(x), y[0])] + y[1..] + [HeadCase(Some(y), z[0])] + z[1..]
  {
    JoinSnoc([], x);
    assert [x] == [] + [x];
    JoinSnoc([x], y);
    assert [x, y] == [x] + [y];
    JoinSnoc([x, y], z);
    assert [x, y, z] == [x, y] + [z];
  }

  lemma ShiftedJetsSpelled()
    ensures [Lower("shifted"[0])] + "shifted"[1..] + [Upper("PatJets"[0])] + "PatJets"[1..]
      + [Upper("EnUp"[0])] + "EnUp"[1..] == "shiftedPatJetsEnUp"
  {
    assert "shifted"[1..] == "hifted";
    assert "PatJets"[1..] == "atJets";
    assert "EnUp"[1..] == "nUp";
  }

  /** The up-shifted default jet collection is named "shiftedPatJetsEnUp". */
  lemma ShiftedJetsJoin()
    ensures NonEmptyFragments(["shifted", "PatJets", "EnUp"])
    ensures Join(["shifted", "PatJets", "EnUp"]) == "shiftedPatJetsEnUp"
  {
    JoinThree("shifted", "PatJets", "EnUp");
    assert EndsLowerOrDigit("shifted") && EndsLowerOrDigit("PatJets");
    ShiftedJetsSpelled();
  }

  lemma ShiftedAK5PFJetsSpelled()
    ensures [Lower("shifted"[0])] + "shifted"[1..] + [Upper("PatJetsAK5PF"[0])] + "PatJetsAK5PF"[1..]
      + [Lower("EnUp"[0])] + "EnUp"[1..] == "shiftedPatJetsAK5PFenUp"
  {
    assert "shifted"[1..] == "hifted";
    assert "PatJetsAK5PF"[1..] == "atJetsAK5PF";
    assert "EnUp"[1..] == "nUp";
  }

  /**
   * After a fragment ending in an upper-case letter the next one starts in
   * lower case: "PatJetsAK5PF" shifted up is "shiftedPatJetsAK5PFenUp".
   */
  lemma ShiftedAK5PFJetsJoin()
    ensures NonEmptyFragments(["shifted", "PatJetsAK5PF", "EnUp"])
    ensures Join(["shifted", "PatJetsAK5PF", "EnUp"]) == "shiftedPatJetsAK5PFenUp"
  {
    JoinThree("shifted", "PatJetsAK5PF", "EnUp");
    assert EndsLowerOrDigit("shifted");
    assert !EndsLowerOrDigit("PatJetsAK5PF") by {
      assert "PatJetsAK5PF"[11] == 'F';
    }
    ShiftedAK5PFJetsSpelled();
  }

  /** The shifted-jet name of the default configuration, end to end. */
  lemma ShiftedJetsName()
    ensures ModuleName([Some("shifted"), Some("cleanPatJets"), Some("EnUp")]) == Success("shiftedPatJetsEnUp")
  {
    StripCleanPatJets();
    NoCandidateUnchanged("shifted", "selected");
    NoCandidateUnchanged("shifted", "clean");
    NoCandidateUnchanged("EnUp", "selected");
    NoCandidateUnchanged("EnUp", "clean");
    ThreePartName("shifted", "cleanPatJets", "EnUp");
    ShiftedJetsJoin();
  }

  /** Changing the case of a letter and changing it back gives the letter again. */
  lemma CaseRoundTrip(c: char)
    ensures IsUpper(c) ==> Upper(Lower(c)) == c
    ensures IsLower(c) ==> Lower(Upper(c)) == c
  {
  }

  /** "selected" is deleted from a selected collection just as "clean" is from a clean one. */
  lemma StripSelectedPatJets()
    ensures Strip("selectedPatJets") == "PatJets"
  {
    assert "selectedPatJets" == [] + "selected" + "PatJets";
    RemoveAllLeftmost([], "selected", "PatJets");
    NoCandidateUnchanged("PatJets", "selected");
    NoCandidateUnchanged("PatJets", "clean");
  }

  /**
   * Two collections that differ only in the qualifier stripping deletes get
   * the same shifted name: "selectedPatJets" shifted up is
   * "shiftedPatJetsEnUp", like "cleanPatJets".
   */
  lemma SelectedPatJetsShiftedName()
    ensures ModuleName([Some("shifted"), Some("selectedPatJets"), Some("EnUp")]) == Success("shiftedPatJetsEnUp")
    ensures ModuleName([Some("shifted"), Some("selectedPatJets"), Some("EnUp")])
      == ModuleName([Some("shifted"), Some("cleanPatJets"), Some("EnUp")])
  {
    StripSelectedPatJets();
    NoCandidateUnchanged("shifted", "selected");
    NoCandidateUnchanged("shifted", "clean");
    NoCandidateUnchanged("EnUp", "selected");
    NoCandidateUnchanged("EnUp", "clean");
    ThreePartName("shifted", "selectedPatJets", "EnUp");
    ShiftedJetsJoin();
    ShiftedJetsName();
  }

  lemma ShiftedJetsDownSpelled()
    ensures [Lower("shifted"[0])] + "shifted"[1..] + [Upper("PatJets"[0])] + "PatJets"[1..]
      + [Upper("EnDown"[0])] + "EnDown"[1..] == "shiftedPatJetsEnDown"
  {
    assert "shifted"[1..] == "hifted";
    assert "PatJets"[1..] == "atJets";
    assert "EnDown"[1..] == "nDown";
  }

  /** "selectedPatJets" shifted down is "shiftedPatJetsEnDown". */
  lemma SelectedPatJetsShiftedDownName()
    ensures ModuleName([Some("shifted"), Some("selectedPatJets"), Some("EnDown")]) == Success("shiftedPatJetsEnDown")
  {
    StripSelectedPatJets();
    NoCandidateUnchanged("shifted", "selected");
    NoCandidateUnchanged("shifted", "clean");
    NoCandidateUnchanged("EnDown", "selected");
    NoCandidateUnchanged("EnDown", "clean");
    ThreePartName("shifted", "selectedPatJets", "EnDown");
    assert Join(["shifted", "PatJets", "EnDown"]) == "shiftedPatJetsEnDown" by {
      JoinThree("shifted", "PatJets", "EnDown");
      assert EndsLowerOrDigit("shifted") && EndsLowerOrDigit("PatJets");
      ShiftedJetsDownSpelled();
    }
  }
}
