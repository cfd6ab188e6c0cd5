/** The string operations the generators and the exporter rely on:
    `toLowerCase` (on ASCII letters), `includes`, `indexOf`, `replace` with a
    string pattern (first occurrence only), `Array.join`, and the decimal
    text of an integer as a template literal writes it. */
module Text {
  import opened Common

  function LowerChar(c: char): char
  {
    if 'A' <= c <= 'Z' then (c as int + 32) as char else c
  }

  /** `toLowerCase`, on the ASCII letters. */
  function Lower(s: string): (r: string)
    ensures |r| == |s|
  {
    if s == [] then [] else Lower(s[..|s| - 1]) + [LowerChar(s[|s| - 1])]
  }

  /** Character `i` of the lower-cased text is character `i` lower-cased. */
  lemma {:induction false} LowerAt(s: string, i: nat)
    requires i < |s|
    ensures Lower(s)[i] == LowerChar(s[i])
    decreases |s|
  {
    if i < |s| - 1 {
      LowerAt(s[..|s| - 1], i);
    }
  }

  lemma LowerIdempotent(s: string)
    ensures Lower(Lower(s)) == Lower(s)
  {
    var l := Lower(s);
    forall i | 0 <= i < |l|
      ensures Lower(l)[i] == l[i]
    {
      LowerAt(l, i);
      LowerAt(s, i);
    }
  }

  /** Lower-casing leaves no upper-case ASCII letter. */
  lemma LowerHasNoCapitals(s: string, i: nat)
    requires i < |s|
    ensures !('A' <= Lower(s)[i] <= 'Z')
  {
    LowerAt(s, i);
  }

  /** `p` occurs in `s` at position `j`. */
  predicate MatchAt(s: string, p: string, j: int)
  {
    0 <= j && j + |p| <= |s| && s[j..j + |p|] == p
  }

  /** The characters of `p` from position `k` on are those of `s` from
      position `j + k` on; this is how the search compares, one character at
      a time. */
  predicate AgreesFrom(s: string, p: string, j: nat, k: nat)
    requires j + |p| <= |s|
    decreases |p| - k
  {
    k >= |p| || (s[j + k] == p[k] && AgreesFrom(s, p, j, k + 1))
  }

  lemma {:induction false} AgreesFromMatch(s: string, p: string, j: nat, k: nat)
    requires j + |p| <= |s| && k <= |p|
    ensures AgreesFrom(s, p, j, k) <==> s[j + k..j + |p|] == p[k..]
    decreases |p| - k
  {
    if k < |p| {
      AgreesFromMatch(s, p, j, k + 1);
      assert s[j + k..j + |p|] == [s[j + k]] + s[j + k + 1..j + |p|];
      assert p[k..] == [p[k]] + p[k + 1..];
    }
  }

  /** The first position at or after `from` where `p` occurs. */
  function IndexOfFrom(s: string, p: string, from: nat): (r: Option<nat>)
    ensures r.Some? ==> from <= r.value && r.value + |p| <= |s|
    decreases |s| - from
  {
    if from + |p| > |s| then None
    else if AgreesFrom(s, p, from, 0) then Some(from)
    else IndexOfFrom(s, p, from + 1)
  }

  /** The search finds the first occurrence at or after `from`, and reports
      none only when there is none. */
  lemma {:induction false} IndexOfFromFirst(s: string, p: string, from: nat)
    ensures var r := IndexOfFrom(s, p, from);
            (r.Some? ==> from <= r.value && MatchAt(s, p, r.value))
            && (r.Some? ==> forall j | from <= j < r.value :: !MatchAt(s, p, j))
            && (r.None? ==> forall j | from <= j :: !MatchAt(s, p, j))
    decreases |s| - from
  {
    if from + |p| <= |s| {
      AgreesFromMatch(s, p, from, 0);
      assert p[0..] == p;
      if !AgreesFrom(s, p, from, 0) {
        IndexOfFromFirst(s, p, from + 1);
      }
    }
  }

  /** `indexOf`: the first position of `p` in `s`. */
  function IndexOf(s: string, p: string): Option<nat>
  {
    IndexOfFrom(s, p, 0)
  }

  /** `includes`. */
  predicate Contains(s: string, p: string)
  {
    IndexOf(s, p).Some?
  }

  lemma ContainsIff(s: string, p: string)
    ensures Contains(s, p) <==> exists j :: MatchAt(s, p, j)
  {
    IndexOfFromFirst(s, p, 0);
    if !Contains(s, p) {
      assert forall j | 0 <= j :: !MatchAt(s, p, j);
    }
  }

  /** Every string contains itself, and the empty string. */
  lemma ContainsSelfAndEmpty(s: string)
    ensures Contains(s, s) && Contains(s, "")
  {
    assert MatchAt(s, s, 0);
    assert MatchAt(s, "", 0);
    ContainsIff(s, s);
    ContainsIff(s, "");
  }

  /** `replace(p, rep)` with a string pattern: only the first occurrence,
      and the replacement text goes through `Substitution`. */
  function ReplaceFirst(s: string, p: string, rep: string): string
  {
    var i := IndexOf(s, p);
    if i.None? then s
    else s[..i.value] + Substitution(rep, p, s[..i.value], s[i.value + |p|..]) + s[i.value + |p|..]
  }

  /** GetSubstitution (section 22.1.3.19.1 of ECMA-262) for a string pattern,
      which has no capture groups: `$$` is a dollar sign, `$&` the matched
      text, `` $` `` the text before the match and `$'` the text after it;
      every other `$` is kept as it is (`$1` and `$<` among them, as there is
      no group to refer to). */
  function Substitution(rep: string, matched: string, before: string, after: string): string
    decreases |rep|
  {
    if rep == [] then ""
    else if |rep| >= 2 && rep[0] == '$' && rep[1] == '$' then "$" + Substitution(rep[2..], matched, before, after)
    else if |rep| >= 2 && rep[0] == '$' && rep[1] == '&' then matched + Substitution(rep[2..], matched, before, after)
    else if |rep| >= 2 && rep[0] == '$' && rep[1] == '`' then before + Substitution(rep[2..], matched, before, after)
    else if |rep| >= 2 && rep[0] == '$' && rep[1] == '\'' then after + Substitution(rep[2..], matched, before, after)
    else [rep[0]] + Substitution(rep[1..], matched, before, after)
  }

  /** A replacement without a dollar sign is inserted as it is. */
  lemma {:induction false} SubstitutionPlain(rep: string, matched: string, before: string, after: string)
    requires '$' !in rep
    ensures Substitution(rep, matched, before, after) == rep
    decreases |rep|
  {
    if rep != [] {
      assert rep[0] != '$';
      SubstitutionPlain(rep[1..], matched, before, after);
      assert rep == [rep[0]] + rep[1..];
    }
  }

  /** `$&` in a replacement stands for the matched text, and `$$` for one
      dollar sign. */
  lemma SubstitutionPatterns(matched: string, before: string, after: string)
    ensures Substitution("A$&", matched, before, after) == "A" + matched
    ensures Substitution("$$", matched, before, after) == "$"
    ensures Substitution("$1", matched, before, after) == "$1"
  {
    var rep := "A$&";
    assert rep[1..] == "$&" && "$&"[2..] == [];
    assert "$$"[2..] == [];
    assert "$1"[1..] == "1" && "1"[1..] == [];
  }

  /** A string without the pattern is left as it is. */
  lemma ReplaceFirstAbsent(s: string, p: string, rep: string)
    requires !Contains(s, p)
    ensures ReplaceFirst(s, p, rep) == s
  {
  }

  /** The placeholder filled in: when `p` does not start anywhere inside `a`,
      `a + p + b` becomes `a + rep' + b`, whatever `b` holds, where `rep'` is
      `rep` with its `$` patterns expanded, and `rep` itself when it has no
      dollar sign. */
  lemma ReplaceFirstSplit(a: string, p: string, b: string, rep: string)
    requires forall j | 0 <= j < |a| :: !MatchAt(a + p + b, p, j)
    ensures ReplaceFirst(a + p + b, p, rep) == a + Substitution(rep, p, a, b) + b
    ensures '$' !in rep ==> ReplaceFirst(a + p + b, p, rep) == a + rep + b
  {
    var s := a + p + b;
    assert s[|a|..|a| + |p|] == p;
    assert MatchAt(s, p, |a|);
    IndexOfFromFirst(s, p, 0);
    var i := IndexOf(s, p);
    assert i.Some? && i.value == |a|;
    assert s[..|a|] == a;
    assert s[|a| + |p|..] == b;
    if '$' !in rep {
      SubstitutionPlain(rep, p, a, b);
    }
  }

  /** A custom-module name `A$&` put into the template `{name}` brings the
      placeholder back instead of the name. */
  lemma ReplaceDollarName()
    ensures ReplaceFirst("{name}", "{name}", "A$&") == "A{name}"
  {
    var p := "{name}";
    assert [] + p + [] == p;
    ReplaceFirstSplit([], p, [], "A$&");
    SubstitutionPatterns(p, [], []);
  }

  /** `Array.join(sep)`. */
  function Join(parts: seq<string>, sep: string): string
  {
    if |parts| == 0 then ""
    else if |parts| == 1 then parts[0]
    else Join(parts[..|parts| - 1], sep) + sep + parts[|parts| - 1]
  }

  function TotalLength(parts: seq<string>): nat
  {
    if parts == [] then 0 else TotalLength(parts[..|parts| - 1]) + |parts[|parts| - 1]|
  }

  /** The joined text holds every part and one separator between neighbours. */
  lemma {:induction false} JoinLength(parts: seq<string>, sep: string)
    requires parts != []
    ensures |Join(parts, sep)| == TotalLength(parts) + (|parts| - 1) * |sep|
    decreases |parts|
  {
    if |parts| == 1 {
      assert parts[..0] == [];
    } else {
      JoinLength(parts[..|parts| - 1], sep);
    }
  }

  // ---------------------------------------------------------------------
  // Decimal text of an integer
  // ---------------------------------------------------------------------

  function DigitChar(d: int): char
    requires 0 <= d < 10
  {
    ('0' as int + d) as char
  }

  predicate IsDigit(c: char)
  {
    '0' <= c <= '9'
  }

  function DigitValue(c: char): int
  {
    c as int - '0' as int
  }

  /** The decimal text of a natural number, without leading zeros. */
  function NatToString(n: nat): (s: string)
    ensures |s| >= 1
  {
    if n < 10 then [DigitChar(n)] else NatToString(n / 10) + [DigitChar(n % 10)]
  }

  /** Only digits, and no leading zero. */
  lemma {:induction false} NatToStringDigits(n: nat)
    ensures forall i | 0 <= i < |NatToString(n)| :: IsDigit(NatToString(n)[i])
    ensures |NatToString(n)| > 1 ==> NatToString(n)[0] != '0'
  {
    if n >= 10 {
      NatToStringDigits(n / 10);
      var s := NatToString(n);
      var p := NatToString(n / 10);
      assert s == p + [DigitChar(n % 10)];
      assert forall i | 0 <= i < |p| :: s[i] == p[i];
      if n / 10 < 10 {
        assert p == [DigitChar(n / 10)];
      }
    }
  }

  /** The number a string of digits denotes. */
  function ParseDigits(s: string): int
  {
    if s == [] then 0 else 10 * ParseDigits(s[..|s| - 1]) + DigitValue(s[|s| - 1])
  }

  /** Reading the digits back gives the number. */
  lemma {:induction false} NatToStringRoundTrip(n: nat)
    ensures ParseDigits(NatToString(n)) == n
  {
    if n >= 10 {
      NatToStringRoundTrip(n / 10);
      var s := NatToString(n);
      assert s[..|s| - 1] == NatToString(n / 10);
    } else {
      assert NatToString(n)[..0] == [];
    }
  }

  /** `${n}` for an integer. */
  function IntToString(n: int): (s: string)
    ensures |s| >= 1
  {
    if n < 0 then "-" + NatToString(-n) else NatToString(n)
  }

  lemma IntToStringNegative(n: int)
    requires n < 0
    ensures IntToString(n)[0] == '-' && ParseDigits(IntToString(n)[1..]) == -n
  {
    assert IntToString(n)[1..] == NatToString(-n);
    NatToStringRoundTrip(-n);
  }

  lemma IntToStringNonNegative(n: nat)
    ensures IsDigit(IntToString(n)[0]) && ParseDigits(IntToString(n)) == n
  {
    NatToStringRoundTrip(n);
    NatToStringDigits(n);
  }
}
