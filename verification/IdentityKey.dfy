/** The switch-identity key: a details string with its tera parts removed. */
module IdentityKey {
  import opened Basics

  const SEPARATOR: string := ", "
  const TERA_PREFIX: string := "tera:"

  predicate StartsWith(s: string, prefix: string) {
    |prefix| <= |s| && s[..|prefix|] == prefix
  }

  /** `details.split(", ")`: leftmost, non-overlapping separators. */
  function Split(s: string): (parts: seq<string>)
    ensures parts != []
  {
    if s == [] then [[]]
    else if StartsWith(s, SEPARATOR) then [[]] + Split(s[2..])
    else
      var rest := Split(s[1..]);
      [[s[0]] + rest[0]] + rest[1..]
  }

  /** `", ".join(parts)`. */
  function Join(parts: seq<string>): string {
    if parts == [] then []
    else if |parts| == 1 then parts[0]
    else parts[0] + SEPARATOR + Join(parts[1..])
  }

  predicate KeptPart(part: string) {
    !StartsWith(part, TERA_PREFIX)
  }

  function Kept(parts: seq<string>): seq<string> {
    Filter(KeptPart, parts)
  }

  function Normalize(details: string): string {
    Join(Kept(Split(details)))
  }

  ghost predicate SeparatorFree(s: string) {
    forall i :: 0 <= i < |s| - 1 ==> !(s[i] == ',' && s[i + 1] == ' ')
  }

  lemma AtSeparator(s: string)
    ensures StartsWith(s, SEPARATOR) <==> |s| >= 2 && s[0] == ',' && s[1] == ' '
  {
    if |s| >= 2 {
      assert s[..2] == [s[0], s[1]];
    }
  }

  lemma {:induction false} SplitOfSeparatorFree(s: string)
    requires SeparatorFree(s)
    ensures Split(s) == [s]
  {
    if s != [] {
      assert forall i :: 0 <= i < |s[1..]| ==> s[1..][i] == s[i + 1];
      AtSeparator(s);
      SplitOfSeparatorFree(s[1..]);
      assert [s[0]] + s[1..] == s;
    }
  }

  /** A separator never overlaps another, so splitting a join of two strings splits each of them. */
  lemma {:induction false} SplitConcat(a: string, b: string)
    ensures Split(a + SEPARATOR + b) == Split(a) + Split(b)
  {
    var s := a + SEPARATOR + b;
    if a == [] {
      assert s == SEPARATOR + b;
      assert s[..2] == SEPARATOR && s[2..] == b;
    } else if StartsWith(a, SEPARATOR) {
      assert s[..2] == a[..2] && s[2..] == a[2..] + SEPARATOR + b;
      SplitConcat(a[2..], b);
    } else {
      assert s[0] == a[0] && s[1..] == a[1..] + SEPARATOR + b;
      assert !StartsWith(s, SEPARATOR) by {
        if |a| > 1 { assert s[..2] == a[..2]; } else { assert s[..2][1] == ','; }
      }
      SplitConcat(a[1..], b);
      var rest := Split(a[1..]);
      assert (rest + Split(b))[0] == rest[0];
      assert (rest + Split(b))[1..] == rest[1..] + Split(b);
    }
  }

  lemma {:induction false} SplitPartsAreSeparatorFree(s: string)
    ensures forall part :: part in Split(s) ==> SeparatorFree(part)
  {
    if s != [] {
      if StartsWith(s, SEPARATOR) {
        SplitPartsAreSeparatorFree(s[2..]);
      } else {
        SplitPartsAreSeparatorFree(s[1..]);
        var rest := Split(s[1..]);
        SplitHead(s[1..]);
        var head := [s[0]] + rest[0];
        assert rest[0] in rest;
        assert SeparatorFree(head) by {
          forall i | 0 <= i < |head| - 1 ensures !(head[i] == ',' && head[i + 1] == ' ') {
            if i == 0 {
              AtSeparator(s);
              assert head[1] == rest[0][0] == s[1];
            } else {
              assert head[i] == rest[0][i - 1] && head[i + 1] == rest[0][i];
            }
          }
        }
        assert forall part :: part in rest[1..] ==> part in rest;
      }
    }
  }

  /** The first part is a prefix of the string. */
  lemma {:induction false} SplitHead(s: string)
    ensures StartsWith(s, Split(s)[0])
  {
    if s != [] && !StartsWith(s, SEPARATOR) {
      SplitHead(s[1..]);
      var rest := Split(s[1..]);
      assert s[..1 + |rest[0]|] == [s[0]] + s[1..][..|rest[0]|];
    }
  }

  /** `split` undoes `join` on every non-empty list of separator-free parts. */
  lemma {:induction false} SplitJoin(parts: seq<string>)
    requires parts != []
    requires forall part :: part in parts ==> SeparatorFree(part)
    ensures Split(Join(parts)) == parts
  {
    SplitOfSeparatorFree(parts[0]);
    if |parts| > 1 {
      SplitConcat(parts[0], Join(parts[1..]));
      SplitJoin(parts[1..]);
      assert parts == [parts[0]] + parts[1..];
    }
  }

  lemma {:induction false} KeptOfKept(parts: seq<string>)
    requires forall part :: part in parts ==> KeptPart(part)
    ensures Kept(parts) == parts
  {
    if parts != [] {
      KeptOfKept(parts[1..]);
      assert parts == [parts[0]] + parts[1..];
    }
  }

  /** Normalizing a key again changes nothing. */
  lemma {:induction false} NormalizeIdempotent(details: string)
    ensures Normalize(Normalize(details)) == Normalize(details)
  {
    var kept := Kept(Split(details));
    KeptOfKept(kept);
    if kept == [] {
      assert Split([]) == [[]];
      KeptOfKept([[]]);
    } else {
      SplitPartsAreSeparatorFree(details);
      SplitJoin(kept);
    }
  }

  /** What appending a tera part does for every type text: only what follows a separator inside it survives. */
  lemma {:induction false} NormalizeAppended(details: string, tera: string)
    ensures Normalize(details + SEPARATOR + TERA_PREFIX + tera)
         == Join(Kept(Split(details)) + Kept(Split(tera)[1..]))
  {
    var part := TERA_PREFIX + tera;
    assert details + SEPARATOR + TERA_PREFIX + tera == details + SEPARATOR + part;
    SplitConcat(details, part);
    FilterConcat(KeptPart, Split(details), Split(part));
    KeptOfTera(tera);
  }

  lemma KeptOfTera(tera: string)
    ensures Kept(Split(TERA_PREFIX + tera)) == Kept(Split(tera)[1..])
  {
    SplitTera(tera);
    var head := TERA_PREFIX + Split(tera)[0];
    assert head[..5] == TERA_PREFIX;
    FilterConcat(KeptPart, [head], Split(tera)[1..]);
    assert Filter(KeptPart, [head]) == [];
  }

  lemma SplitTera(tera: string)
    ensures Split(TERA_PREFIX + tera) == [TERA_PREFIX + Split(tera)[0]] + Split(tera)[1..]
  {
    SplitLetters(TERA_PREFIX, tera);
  }

  lemma {:induction false} SplitLetters(letters: string, s: string)
    requires ',' !in letters
    ensures Split(letters + s) == [letters + Split(s)[0]] + Split(s)[1..]
  {
    if letters == [] {
      assert letters + s == s && letters + Split(s)[0] == Split(s)[0];
    } else {
      var rest := letters[1..] + s;
      assert letters + s == [letters[0]] + rest;
      SplitLetters(letters[1..], s);
      SplitStep(letters[0], rest);
      assert [letters[0]] + (letters[1..] + Split(s)[0]) == letters + Split(s)[0];
    }
  }

  lemma SplitStep(c: char, s: string)
    requires c != ','
    ensures Split([c] + s) == [[c] + Split(s)[0]] + Split(s)[1..]
  {
    var t := [c] + s;
    assert t[0] == c && t[1..] == s;
    assert !StartsWith(t, SEPARATOR) by {
      if |t| >= 2 { assert t[..2][0] == c; }
    }
  }

  /** Terastallizing keeps the key: a tera suffix whose type holds no separator is invisible to it. */
  lemma {:induction false} TeraSuffixIsInvisible(details: string, tera: string)
    requires SeparatorFree(tera)
    ensures Normalize(details + SEPARATOR + TERA_PREFIX + tera) == Normalize(details)
  {
    NormalizeAppended(details, tera);
    SplitOfSeparatorFree(tera);
    assert Kept(Split(tera)[1..]) == [];
    assert Kept(Split(details)) + [] == Kept(Split(details));
  }
}
