/** Splitting a Capstone mnemonic into its base operation and its condition code. Both
  * interpreters scan a fixed list of base mnemonics in order, take the first that is a
  * prefix, and require the rest to be one of the condition codes of section A3.2.1 of the
  * ARM Architecture Reference Manual (DDI 0100). They differ in their lists and in what
  * happens when no entry matches. */
module Mnemonics {
  import opened Faults

  /** The library's list (`extract_condition` in `lib.rs`). */
  const LibMnemonics: seq<string> := [
    "add", "sub", "mul", "and", "eor", "orr", "mla", "mov", "lsl", "lsr", "asr", "ror", "rrx",
    "mvn", "cmp", "cmn", "mrs"]

  /** The command-line interpreter's list (`extract_condition` in `main.rs`). */
  const CliMnemonics: seq<string> := ["add", "sub", "mul", "and", "bic", "clz", "eor", "mla", "mov", "mrs"]

  /** The condition codes, the empty one (always) included. */
  const Conditions: seq<string> := [
    "", "eq", "ne", "cs", "hs", "cc", "lo", "mi", "pl", "vs", "vc", "hi", "ls", "ge", "lt",
    "gt", "le", "al"]

  /** The two strings `extract_condition` returns: the mnemonic and its condition code. */
  datatype Split = Split(mnemonic: string, condition: string)

  /** The first entry of `known` that is a prefix of `mn` (`starts_with`), if any. */
  function FirstPrefix(known: seq<string>, mn: string): (r: Option<nat>)
    ensures r.Some? ==> r.value < |known| && known[r.value] <= mn
    ensures r.Some? ==> forall j | 0 <= j < r.value :: !(known[j] <= mn)
    ensures r.None? <==> forall j | 0 <= j < |known| :: !(known[j] <= mn)
  {
    if known == [] then None
    else if known[0] <= mn then Some(0)
    else match FirstPrefix(known[1..], mn)
      case None => None
      case Some(i) => Some(i + 1)
  }

  /** What the scan returns: the whole mnemonic with the rest after the first matching entry
    * as its condition; a rest that is not a condition code panics; `fallback` when no entry
    * matches. */
  function ExtractWith(known: seq<string>, mn: string, fallback: Result<Split>): Result<Split>
  {
    match FirstPrefix(known, mn)
    case None => fallback
    case Some(i) =>
      var condition := mn[|known[i]|..];
      if condition in Conditions then Ok(Split(mn, condition)) else Panic(UnknownCondition)
  }

  /** The library's `extract_condition`: no match panics. */
  function LibSplit(mn: string): (r: Result<Split>)
    ensures FirstPrefix(LibMnemonics, mn).None? ==> r == Panic(UnrecognisedMnemonic)
    ensures r.Ok? ==>
      r.value.mnemonic == mn && r.value.condition in Conditions &&
      |r.value.condition| <= |mn| && mn[..|mn| - |r.value.condition|] in LibMnemonics
  {
    SplitShape(LibMnemonics, mn, Panic(UnrecognisedMnemonic));
    ExtractWith(LibMnemonics, mn, Panic(UnrecognisedMnemonic))
  }

  /** The command-line interpreter's `extract_condition`: no match gives two empty strings. */
  function CliSplit(mn: string): (r: Result<Split>)
    ensures FirstPrefix(CliMnemonics, mn).None? ==> r == Ok(Split("", ""))
    ensures FirstPrefix(CliMnemonics, mn).Some? && r.Ok? ==>
      r.value.mnemonic == mn && r.value.condition in Conditions &&
      |r.value.condition| <= |mn| && mn[..|mn| - |r.value.condition|] in CliMnemonics
  {
    SplitShape(CliMnemonics, mn, Ok(Split("", "")));
    ExtractWith(CliMnemonics, mn, Ok(Split("", "")))
  }

  /** The loop both `extract_condition`s run, with its early returns. */
  method Scan(known: seq<string>, mnemonic: string, fallback: Result<Split>) returns (r: Result<Split>)
    ensures r == ExtractWith(known, mnemonic, fallback)
  {
    var i := 0;
    while i < |known|
      invariant 0 <= i <= |known|
      invariant forall j | 0 <= j < i :: !(known[j] <= mnemonic)
    {
      var m := known[i];
      if m <= mnemonic {
        var condition := mnemonic[|m|..];
        if condition !in Conditions {
          return Panic(UnknownCondition);
        }
        return Ok(Split(mnemonic, condition));
      }
      i := i + 1;
    }
    return fallback;
  }

  /** `extract_condition` of `lib.rs`. */
  method ExtractCondition(mnemonic: string) returns (r: Result<Split>)
    ensures r == LibSplit(mnemonic)
  {
    r := Scan(LibMnemonics, mnemonic, Panic(UnrecognisedMnemonic));
  }

  /** `extract_condition` of `main.rs`. */
  method CliExtractCondition(mnemonic: string) returns (r: Result<Split>)
    ensures r == CliSplit(mnemonic)
  {
    r := Scan(CliMnemonics, mnemonic, Ok(Split("", "")));
  }

  /** Entries of one length, all different: no two can be prefixes of the same string, so the
    * first matching entry is also the only one (and the longest). */
  predicate Unambiguous(known: seq<string>) {
    (forall i | 0 <= i < |known| :: |known[i]| == 3) &&
    (forall i, j | 0 <= i < j < |known| :: known[i] != known[j])
  }

  lemma ListsUnambiguous()
    ensures Unambiguous(LibMnemonics) && Unambiguous(CliMnemonics)
  {
  }

  /** In an unambiguous list at most one entry is a prefix of a given string. */
  lemma AtMostOnePrefix(known: seq<string>, mn: string, i: nat, j: nat)
    requires Unambiguous(known)
    requires i < |known| && j < |known|
    requires known[i] <= mn && known[j] <= mn
    ensures i == j
  {
    assert known[i] == mn[..3] == known[j];
  }

  /** A known base followed by a condition code splits into the whole mnemonic and that
    * code. With `IllegalConditionPanics`, `NoPrefixMatches` and `SplitShape`, a scan over an
    * unambiguous list succeeds through an entry exactly on such mnemonics. */
  lemma {:induction false} ExtractBaseAndCondition(known: seq<string>, base: string, condition: string, fallback: Result<Split>)
    requires Unambiguous(known) && base in known && condition in Conditions
    ensures ExtractWith(known, base + condition, fallback) == Ok(Split(base + condition, condition))
  {
    var mn := base + condition;
    var k :| 0 <= k < |known| && known[k] == base;
    assert known[k] <= mn;
    var i := FirstPrefix(known, mn).value;
    AtMostOnePrefix(known, mn, i, k);
    assert mn[|base|..] == condition;
  }

  /** In an unambiguous list, no entry is a prefix of a mnemonic shorter than three letters
    * or whose first three letters are not an entry. */
  lemma NoPrefixMatches(known: seq<string>, mn: string)
    requires Unambiguous(known) && (|mn| < 3 || mn[..3] !in known)
    ensures FirstPrefix(known, mn) == None
  {
    forall j | 0 <= j < |known|
      ensures !(known[j] <= mn)
    {
      assert |known[j]| == 3;
      if |mn| >= 3 {
        assert known[j] != mn[..3];
      }
    }
  }

  /** What a scan can return. With no matching entry it is the fallback. Otherwise a
    * successful split is the whole mnemonic and a condition code, and what comes before
    * that code is a list entry. A scan whose fallback panics succeeds only through a
    * matching entry. */
  lemma SplitShape(known: seq<string>, mn: string, fallback: Result<Split>)
    ensures FirstPrefix(known, mn).None? ==> ExtractWith(known, mn, fallback) == fallback
    ensures FirstPrefix(known, mn).Some? && ExtractWith(known, mn, fallback).Ok? ==>
      var s := ExtractWith(known, mn, fallback).value;
      s.mnemonic == mn && s.condition in Conditions && |s.condition| <= |mn| &&
      mn[..|mn| - |s.condition|] in known && mn[|mn| - |s.condition|..] == s.condition
    ensures fallback.Panic? && ExtractWith(known, mn, fallback).Ok? ==> FirstPrefix(known, mn).Some?
  {
    if FirstPrefix(known, mn).Some? && ExtractWith(known, mn, fallback).Ok? {
      var i := FirstPrefix(known, mn).value;
      var condition := mn[|known[i]|..];
      assert mn[..|mn| - |condition|] == known[i];
    }
  }

  /** A known base followed by anything that is not a condition code panics. */
  lemma {:induction false} IllegalConditionPanics(known: seq<string>, base: string, rest: string, fallback: Result<Split>)
    requires Unambiguous(known) && base in known && rest !in Conditions
    ensures ExtractWith(known, base + rest, fallback) == Panic(UnknownCondition)
  {
    var mn := base + rest;
    var k :| 0 <= k < |known| && known[k] == base;
    assert known[k] <= mn;
    var i := FirstPrefix(known, mn).value;
    AtMostOnePrefix(known, mn, i, k);
    assert mn[|base|..] == rest;
  }

  /** On a mnemonic that no entry begins, the library panics and the command line returns
    * two empty strings. */
  lemma UnknownMnemonic(mn: string)
    requires |mn| < 3 || (mn[..3] !in LibMnemonics && mn[..3] !in CliMnemonics)
    ensures LibSplit(mn) == Panic(UnrecognisedMnemonic)
    ensures CliSplit(mn) == Ok(Split("", ""))
  {
    ListsUnambiguous();
    NoPrefixMatches(LibMnemonics, mn);
    NoPrefixMatches(CliMnemonics, mn);
  }

  /** A mnemonic with a condition keeps its full spelling: `addne` splits into `addne` and
    * `ne`, so the dispatcher later sees `addne`. */
  lemma SplitKeepsSuffix()
    ensures LibSplit("addne") == Ok(Split("addne", "ne"))
  {
    ListsUnambiguous();
    assert "add" + "ne" == "addne";
    ExtractBaseAndCondition(LibMnemonics, "add", "ne", Panic(UnrecognisedMnemonic));
  }

  /** The S suffix is not a condition code, so `adds` panics. */
  lemma SetFlagsSuffixRejected()
    ensures LibSplit("adds") == Panic(UnknownCondition)
  {
    assert LibMnemonics[0] <= "adds";
    assert "adds"[3..] == "s";
  }

  /** `bic` is not on the library's list. */
  lemma LibraryRejectsBic()
    ensures LibSplit("bic") == Panic(UnrecognisedMnemonic)
  {
    ListsUnambiguous();
    assert "bic"[..3] == "bic" && "bic" !in LibMnemonics;
    NoPrefixMatches(LibMnemonics, "bic");
  }

  /** `bic` is on the command line's list. */
  lemma CommandLineAcceptsBic()
    ensures CliSplit("bic") == Ok(Split("bic", ""))
  {
    ListsUnambiguous();
    assert "bic" + "" == "bic";
    ExtractBaseAndCondition(CliMnemonics, "bic", "", Ok(Split("", "")));
  }

  /** `orr` is on the library's list. */
  lemma LibraryAcceptsOrr()
    ensures LibSplit("orr") == Ok(Split("orr", ""))
  {
    ListsUnambiguous();
    assert "orr" + "" == "orr";
    ExtractBaseAndCondition(LibMnemonics, "orr", "", Panic(UnrecognisedMnemonic));
  }

  /** `orr` is not on the command line's list, which then gives two empty strings. */
  lemma CommandLineIgnoresOrr()
    ensures CliSplit("orr") == Ok(Split("", ""))
  {
    ListsUnambiguous();
    assert "orr"[..3] == "orr" && "orr" !in CliMnemonics;
    NoPrefixMatches(CliMnemonics, "orr");
  }
}
