/**
 * The curly-quote fixer script: it reads one source file, replaces the four
 * typographic quote characters with ASCII quotes by four successive
 * `str.replace` calls, and writes the text back to the same path.
 */
module QuoteNormalizer {
  import opened Wrappers

  const LEFT_DOUBLE: char := '\U{201C}'
  const RIGHT_DOUBLE: char := '\U{201D}'
  const LEFT_SINGLE: char := '\U{2018}'
  const RIGHT_SINGLE: char := '\U{2019}'
  const STRAIGHT_DOUBLE: char := '"'
  const STRAIGHT_SINGLE: char := '\''

  /** The one file the script rewrites. */
  const TARGET_PATH: string := "src/constants/index.tsx"

  /** One substitution rule: every `source` character becomes `target`. */
  datatype Rule = Rule(source: char, target: char)

  /** The four rules, in the order the script applies them. */
  const RULES: seq<Rule> := [
    Rule(LEFT_DOUBLE, STRAIGHT_DOUBLE),
    Rule(RIGHT_DOUBLE, STRAIGHT_DOUBLE),
    Rule(LEFT_SINGLE, STRAIGHT_SINGLE),
    Rule(RIGHT_SINGLE, STRAIGHT_SINGLE)
  ]

  predicate IsCurly(c: char) {
    c == LEFT_DOUBLE || c == RIGHT_DOUBLE || c == LEFT_SINGLE || c == RIGHT_SINGLE
  }

  /** The reference per-character map the four passes are meant to implement. */
  function Straighten(c: char): char {
    if c == LEFT_DOUBLE || c == RIGHT_DOUBLE then STRAIGHT_DOUBLE
    else if c == LEFT_SINGLE || c == RIGHT_SINGLE then STRAIGHT_SINGLE
    else c
  }

  /**
   * Python's `s.replace(source, target)` for one-character arguments: every
   * occurrence is replaced, position by position, and nothing else moves.
   */
  function Replace(s: string, source: char, target: char): (r: string)
    ensures |r| == |s|
    ensures forall i :: 0 <= i < |s| && s[i] == source ==> r[i] == target
    ensures forall i :: 0 <= i < |s| && s[i] != source ==> r[i] == s[i]
  {
    if s == [] then []
    else [if s[0] == source then target else s[0]] + Replace(s[1..], source, target)
  }

  /** The four `replace` calls one after the other, in the script's order. */
  function Normalize(content: string): (r: string)
    ensures |r| == |content|
    ensures forall i :: 0 <= i < |content| ==> r[i] == Straighten(content[i])
  {
    var afterLeftDouble := Replace(content, LEFT_DOUBLE, STRAIGHT_DOUBLE);
    var afterRightDouble := Replace(afterLeftDouble, RIGHT_DOUBLE, STRAIGHT_DOUBLE);
    var afterLeftSingle := Replace(afterRightDouble, LEFT_SINGLE, STRAIGHT_SINGLE);
    Replace(afterLeftSingle, RIGHT_SINGLE, STRAIGHT_SINGLE)
  }

  /** No curly quote survives the four passes. */
  lemma NoCurlyQuotesRemain(content: string)
    ensures forall i :: 0 <= i < |Normalize(content)| ==> !IsCurly(Normalize(content)[i])
  {
  }

  /** Both double curly quotes become `"`, both single ones become `'`. */
  lemma CurlyQuotesBecomeStraight(content: string, i: nat)
    requires i < |content|
    ensures content[i] == LEFT_DOUBLE || content[i] == RIGHT_DOUBLE ==> Normalize(content)[i] == '"'
    ensures content[i] == LEFT_SINGLE || content[i] == RIGHT_SINGLE ==> Normalize(content)[i] == '\''
    ensures !IsCurly(content[i]) ==> Normalize(content)[i] == content[i]
  {
  }

  /** Running the script on its own output changes nothing. */
  lemma NormalizeIdempotent(content: string)
    ensures Normalize(Normalize(content)) == Normalize(content)
  {
  }

  /** Text without curly quotes is returned unchanged. */
  lemma QuoteFreeUnchanged(content: string)
    requires forall i :: 0 <= i < |content| ==> !IsCurly(content[i])
    ensures Normalize(content) == content
  {
  }

  /** Applies `rules` left to right, one `replace` pass per rule. */
  function ApplyRules(s: string, rules: seq<Rule>): string
    decreases |rules|
  {
    if rules == [] then s
    else ApplyRules(Replace(s, rules[0].source, rules[0].target), rules[1..])
  }

  /** What the first rule whose source is `c` maps it to; `c` itself when none does. */
  function Lookup(rules: seq<Rule>, c: char): char
    decreases |rules|
  {
    if rules == [] then c
    else if rules[0].source == c then rules[0].target
    else Lookup(rules[1..], c)
  }

  ghost predicate SourcesDistinct(rules: seq<Rule>) {
    forall i, j :: 0 <= i < j < |rules| ==> rules[i].source != rules[j].source
  }

  ghost predicate NoTargetIsSource(rules: seq<Rule>) {
    forall i, j :: 0 <= i < |rules| && 0 <= j < |rules| ==> rules[i].target != rules[j].source
  }

  lemma {:induction false} LookupMissing(rules: seq<Rule>, c: char)
    requires forall r :: r in rules ==> r.source != c
    ensures Lookup(rules, c) == c
    decreases |rules|
  {
    if rules != [] {
      assert rules[0] in rules;
      LookupMissing(rules[1..], c);
    }
  }

  lemma {:induction false} LookupFound(rules: seq<Rule>, r: Rule)
    requires SourcesDistinct(rules)
    requires r in rules
    ensures Lookup(rules, r.source) == r.target
    decreases |rules|
  {
    if rules[0] != r {
      var k :| 0 <= k < |rules| && rules[k] == r;
      assert k > 0;
      assert rules[1..][k - 1] == r;
      LookupFound(rules[1..], r);
    }
  }

  /**
   * Passes whose sources are pairwise distinct and never produced by another
   * pass act, character by character, as one table lookup.
   */
  lemma {:induction false} ApplyRulesIsLookup(s: string, rules: seq<Rule>)
    requires SourcesDistinct(rules)
    requires NoTargetIsSource(rules)
    ensures |ApplyRules(s, rules)| == |s|
    ensures forall i :: 0 <= i < |s| ==> ApplyRules(s, rules)[i] == Lookup(rules, s[i])
    decreases |rules|
  {
    if rules != [] {
      var rest := rules[1..];
      var first := rules[0];
      var s' := Replace(s, first.source, first.target);
      ApplyRulesIsLookup(s', rest);
      forall i | 0 <= i < |s|
        ensures ApplyRules(s, rules)[i] == Lookup(rules, s[i])
      {
        if s[i] == first.source {
          assert forall r :: r in rest ==> r.source != first.target by {
            forall r | r in rest ensures r.source != first.target {
              var k :| 0 <= k < |rest| && rest[k] == r;
              assert rules[k + 1] == r;
            }
          }
          LookupMissing(rest, first.target);
        }
      }
    }
  }

  lemma {:induction false} RepeatedElementCountsTwice(xs: seq<Rule>, i: nat, j: nat)
    requires i < j < |xs| && xs[i] == xs[j]
    ensures multiset(xs)[xs[i]] >= 2
  {
    assert xs == xs[..j] + [xs[j]] + xs[j + 1..];
    assert xs[..j][i] == xs[i];
    assert xs[i] in multiset(xs[..j]);
  }

  /** Each of the four rules occurs once in the script's list. */
  lemma RulesOccurOnce(r: Rule)
    requires r in RULES
    ensures multiset(RULES)[r] == 1
  {
  }

  /** A reordering of the four rules keeps their sources distinct and never feeds one pass another's output. */
  lemma PermutedRulesWellFormed(order: seq<Rule>)
    requires multiset(order) == multiset(RULES)
    ensures forall r :: r in order <==> r in RULES
    ensures SourcesDistinct(order)
    ensures NoTargetIsSource(order)
  {
    forall r | r in order ensures r in RULES {
      assert r in multiset(order);
    }
    forall r | r in RULES ensures r in order {
      assert r in multiset(RULES);
    }
    forall i, j | 0 <= i < j < |order| ensures order[i].source != order[j].source {
      if order[i].source == order[j].source {
        assert order[i] in RULES && order[j] in RULES;
        RepeatedElementCountsTwice(order, i, j);
        RulesOccurOnce(order[i]);
        assert false;
      }
    }
    forall i, j | 0 <= i < |order| && 0 <= j < |order|
      ensures order[i].target != order[j].source
    {
      assert order[i] in RULES && order[j] in RULES;
    }
  }

  /** Looking a character up in any reordering of the four rules is `Straighten`. */
  lemma LookupPermutedIsStraighten(order: seq<Rule>, c: char)
    requires forall r :: r in order <==> r in RULES
    requires SourcesDistinct(order)
    ensures Lookup(order, c) == Straighten(c)
  {
    if IsCurly(c) {
      var r :| r in RULES && r.source == c;
      LookupFound(order, r);
    } else {
      LookupMissing(order, c);
    }
  }

  /**
   * The four rules commute: applying them in any order (any permutation of
   * the script's four `replace` calls) gives the script's result.
   */
  lemma AnyOrderSameResult(content: string, order: seq<Rule>)
    requires multiset(order) == multiset(RULES)
    ensures ApplyRules(content, order) == Normalize(content)
  {
    PermutedRulesWellFormed(order);
    ApplyRulesIsLookup(content, order);
    forall i | 0 <= i < |content| ensures ApplyRules(content, order)[i] == Normalize(content)[i] {
      LookupPermutedIsStraighten(order, content[i]);
    }
  }

  /** The errors the script can stop with before writing anything. */
  datatype IoError = FileNotFound

  /**
   * The whole script over a file system given as a map from path to the
   * text a text-mode read returns (line endings already translated to `\n`):
   * read the target, rebind `content` four times, write it back to the same
   * path. A missing file stops the script with nothing written.
   */
  method FixQuotes(files: map<string, string>) returns (result: Result<map<string, string>, IoError>)
    ensures TARGET_PATH !in files ==> result == Failure(FileNotFound)
    ensures TARGET_PATH in files ==>
              && result.Success?
              && result.value.Keys == files.Keys
              && result.value[TARGET_PATH] == Normalize(files[TARGET_PATH])
              && forall p :: p in files && p != TARGET_PATH ==> result.value[p] == files[p]
  {
    if TARGET_PATH !in files {
      return Failure(FileNotFound);
    }
    var content := files[TARGET_PATH];
    content := Replace(content, LEFT_DOUBLE, STRAIGHT_DOUBLE);
    content := Replace(content, RIGHT_DOUBLE, STRAIGHT_DOUBLE);
    content := Replace(content, LEFT_SINGLE, STRAIGHT_SINGLE);
    content := Replace(content, RIGHT_SINGLE, STRAIGHT_SINGLE);
    result := Success(files[TARGET_PATH := content]);
  }
}
