/**
 * The type quoting classifier: whether values of a declared column type are
 * written between single quotes in a template.
 */
module Quoting {
  import opened Wrappers
  import opened Strings

  /** One entry of the classifier's table: a type keyword and its quoting flag. */
  type Rule = (string, bool)

  /**
   * The classifier's table in its iteration order (the insertion order of the
   * dictionary literal): all quoted keywords first, then the unquoted ones.
   */
  const QuoteRules: seq<Rule> := [
    ("varchar", true), ("text", true), ("char", true),
    ("datetime", true), ("timestamp", true), ("date", true),
    ("int", false), ("bigint", false), ("float", false), ("double", false)
  ]

  /**
   * The flag of the first rule, from index `k` on, whose keyword is a
   * substring of `ty`, if any: the loop over the table, returning early.
   */
  function FirstMatch(rules: seq<Rule>, ty: string, k: nat): Option<bool>
    decreases |rules| - k
  {
    if k >= |rules| then None
    else if Contains(ty, rules[k].0) then Some(rules[k].1)
    else FirstMatch(rules, ty, k + 1)
  }

  /** Does a value of declared type `ty` need quotes? Unmatched types do not. */
  function RequiresQuotes(ty: string): bool {
    FirstMatch(QuoteRules, ty, 0).GetOr(false)
  }

  /** Rule `i` is the first rule from index `k` on whose keyword occurs in `ty`. */
  predicate IsFirstMatch(rules: seq<Rule>, ty: string, k: nat, i: nat) {
    && k <= i < |rules|
    && Contains(ty, rules[i].0)
    && forall j :: k <= j < i ==> !Contains(ty, rules[j].0)
  }

  /** The scan answers the flag of the first matching rule, and nothing when no keyword occurs. */
  lemma {:induction false} FirstMatchSpec(rules: seq<Rule>, ty: string, k: nat)
    ensures FirstMatch(rules, ty, k).Some? <==> exists i :: k <= i < |rules| && Contains(ty, rules[i].0)
    ensures forall i: nat :: IsFirstMatch(rules, ty, k, i) ==> FirstMatch(rules, ty, k) == Some(rules[i].1)
    decreases |rules| - k
  {
    if k < |rules| && !Contains(ty, rules[k].0) {
      FirstMatchSpec(rules, ty, k + 1);
      forall i: nat | IsFirstMatch(rules, ty, k, i)
        ensures FirstMatch(rules, ty, k) == Some(rules[i].1)
      {
        assert IsFirstMatch(rules, ty, k + 1, i);
      }
    }
  }

  /**
   * When the first `q` rules are exactly the quoted ones, the scan from
   * `k <= q` answers `true` exactly when a quoted keyword from `k` on occurs
   * in `ty`.
   */
  lemma {:induction false} QuotedFirst(rules: seq<Rule>, q: nat, ty: string, k: nat)
    requires k <= q <= |rules|
    requires forall i :: 0 <= i < q ==> rules[i].1
    requires forall i :: q <= i < |rules| ==> !rules[i].1
    ensures FirstMatch(rules, ty, k).GetOr(false) <==> exists i :: k <= i < q && Contains(ty, rules[i].0)
    decreases q - k
  {
    if k == q {
      UnquotedOnly(rules, ty, k);
    } else if !Contains(ty, rules[k].0) {
      QuotedFirst(rules, q, ty, k + 1);
    }
  }

  /** A scan over unquoted rules only never answers `true`. */
  lemma {:induction false} UnquotedOnly(rules: seq<Rule>, ty: string, k: nat)
    requires forall i :: k <= i < |rules| ==> !rules[i].1
    ensures !FirstMatch(rules, ty, k).GetOr(false)
    decreases |rules| - k
  {
    if k < |rules| && !Contains(ty, rules[k].0) {
      UnquotedOnly(rules, ty, k + 1);
    }
  }

  /**
   * A type needs quotes exactly when one of the quoted keywords occurs in it,
   * whatever unquoted keyword it also contains ("datetime" and "int" in
   * "datetime_int" still gives `true`).
   */
  lemma RequiresQuotesIff(ty: string)
    ensures RequiresQuotes(ty) <==>
      || Contains(ty, "varchar") || Contains(ty, "text") || Contains(ty, "char")
      || Contains(ty, "datetime") || Contains(ty, "timestamp") || Contains(ty, "date")
  {
    QuotedFirst(QuoteRules, 6, ty, 0);
    if Contains(ty, "varchar") { assert Contains(ty, QuoteRules[0].0); }
    if Contains(ty, "text") { assert Contains(ty, QuoteRules[1].0); }
    if Contains(ty, "char") { assert Contains(ty, QuoteRules[2].0); }
    if Contains(ty, "datetime") { assert Contains(ty, QuoteRules[3].0); }
    if Contains(ty, "timestamp") { assert Contains(ty, QuoteRules[4].0); }
    if Contains(ty, "date") { assert Contains(ty, QuoteRules[5].0); }
  }

  /**
   * Since "varchar" contains "char" and "datetime" contains "date", four
   * keywords decide the answer on their own.
   */
  lemma RequiresQuotesCore(ty: string)
    ensures RequiresQuotes(ty) <==>
      Contains(ty, "char") || Contains(ty, "text") || Contains(ty, "date") || Contains(ty, "timestamp")
  {
    RequiresQuotesIff(ty);
    if Contains(ty, "varchar") {
      assert OccursAt("varchar", "char", 3);
      ContainsIff("varchar", "char");
      ContainsTransitive(ty, "varchar", "char");
    }
    if Contains(ty, "datetime") {
      assert OccursAt("datetime", "date", 0);
      ContainsIff("datetime", "date");
      ContainsTransitive(ty, "datetime", "date");
    }
  }

  /** No quoted keyword occurring means no quotes, whichever unquoted keyword matches. */
  lemma UnquotedWhenNoQuotedKeyword(ty: string)
    requires !Contains(ty, "char") && !Contains(ty, "text")
    requires !Contains(ty, "date") && !Contains(ty, "timestamp")
    ensures !RequiresQuotes(ty)
  {
    RequiresQuotesCore(ty);
  }

  /**
   * A quoted keyword cannot occur in `ty` when one of its characters is
   * missing from `ty`; missing one character of each of the four deciding
   * keywords therefore means no quotes.
   */
  lemma UnquotedWhenCharsMissing(ty: string, c1: char, c2: char, c3: char, c4: char)
    requires c1 in "char" && c1 !in ty
    requires c2 in "text" && c2 !in ty
    requires c3 in "date" && c3 !in ty
    requires c4 in "timestamp" && c4 !in ty
    ensures !RequiresQuotes(ty)
  {
    RequiresQuotesCore(ty);
    Absent(ty, "char", c1);
    Absent(ty, "text", c2);
    Absent(ty, "date", c3);
    Absent(ty, "timestamp", c4);
  }

  /** A keyword holding a character `ty` lacks does not occur in `ty`. */
  lemma Absent(ty: string, keyword: string, c: char)
    requires c in keyword && c !in ty
    ensures !Contains(ty, keyword)
  {
    var k :| 0 <= k < |keyword| && keyword[k] == c;
    if Contains(ty, keyword) {
      ContainedChars(ty, keyword, k);
    }
  }

  /** "varchar(255)" is quoted through its "char" suffix of "varchar". */
  lemma VarcharExample()
    ensures RequiresQuotes("varchar(255)")
  {
    QuotedWhenContains("varchar(255)", "char", 3);
  }

  /** "tinytext" is quoted through "text". */
  lemma TinytextExample()
    ensures RequiresQuotes("tinytext")
  {
    QuotedWhenContains("tinytext", "text", 4);
  }

  /** A deciding keyword found at position `i` of `ty` means quotes. */
  lemma QuotedWhenContains(ty: string, keyword: string, i: nat)
    requires keyword in ["char", "text", "date", "timestamp"]
    requires OccursAt(ty, keyword, i)
    ensures RequiresQuotes(ty)
  {
    ContainsIff(ty, keyword);
    RequiresQuotesCore(ty);
  }

  /** "bigint" is left unquoted. */
  lemma BigintExample()
    ensures !RequiresQuotes("bigint")
  {
    UnquotedWhenCharsMissing("bigint", 'c', 'x', 'd', 'm');
  }

  /** "double" is left unquoted. */
  lemma DoubleExample()
    ensures !RequiresQuotes("double")
  {
    UnquotedWhenCharsMissing("double", 'c', 't', 'a', 't');
  }

  /** "tinyint" is left unquoted: it contains "int", though "int" is not its whole name. */
  lemma TinyintExample()
    ensures !RequiresQuotes("tinyint")
  {
    UnquotedWhenCharsMissing("tinyint", 'c', 'e', 'd', 'm');
  }

  /** A type no keyword matches falls back to no quotes: "decimal" values are written bare. */
  lemma DecimalExample()
    ensures !RequiresQuotes("decimal(10,2)")
  {
    UnquotedWhenCharsMissing("decimal(10,2)", 'h', 't', 't', 't');
  }

  /** "time" is not "timestamp": a TIME column is written bare. */
  lemma TimeExample()
    ensures !RequiresQuotes("time")
  {
    UnquotedWhenCharsMissing("time", 'c', 'x', 'd', 's');
  }
}
