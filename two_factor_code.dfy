/**
 * The normalisation both web controllers apply to a typed authenticator code
 * before sending it for verification: `code.Replace(" ", string.Empty).Replace("-", string.Empty)`.
 */
module TwoFactorCode {

  /** `s.Replace(c.ToString(), string.Empty)`: every occurrence of `c` dropped. */
  function RemoveChar(s: string, c: char): string {
    if s == [] then [] else (if s[0] == c then [] else [s[0]]) + RemoveChar(s[1..], c)
  }

  /** Spaces removed first, then hyphens. */
  function StripSpacesAndHyphens(code: string): string {
    RemoveChar(RemoveChar(code, ' '), '-')
  }

  predicate IsSeparator(c: char) {
    c == ' ' || c == '-'
  }

  lemma {:induction false} RemoveCharConcat(a: string, b: string, c: char)
    ensures RemoveChar(a + b, c) == RemoveChar(a, c) + RemoveChar(b, c)
  {
    if a == [] {
      assert a + b == b;
    } else {
      assert (a + b)[1..] == a[1..] + b;
      RemoveCharConcat(a[1..], b, c);
    }
  }

  /** Normalising a concatenation normalises each part: the characters kept stay in their order. */
  lemma StripConcat(a: string, b: string)
    ensures StripSpacesAndHyphens(a + b) == StripSpacesAndHyphens(a) + StripSpacesAndHyphens(b)
  {
    RemoveCharConcat(a, b, ' ');
    RemoveCharConcat(RemoveChar(a, ' '), RemoveChar(b, ' '), '-');
  }

  lemma RemoveCharSingle(x: char, c: char)
    ensures RemoveChar([x], c) == if x == c then [] else [x]
  {
    assert [x][1..] == [];
    assert RemoveChar([x], c) == (if x == c then [] else [x]) + RemoveChar([], c);
  }

  /** On one character: a space or hyphen vanishes, anything else is kept. */
  lemma StripChar(x: char)
    ensures StripSpacesAndHyphens([x]) == if IsSeparator(x) then [] else [x]
  {
    RemoveCharSingle(x, ' ');
    if x != ' ' {
      RemoveCharSingle(x, '-');
    }
  }

  lemma {:induction false} RemoveCharAbsent(s: string, c: char)
    requires c !in s
    ensures RemoveChar(s, c) == s
  {
    if s != [] {
      RemoveCharAbsent(s[1..], c);
    }
  }

  lemma {:induction false} RemoveCharRemoves(s: string, c: char, d: char)
    ensures c !in RemoveChar(s, c)
    ensures d !in s ==> d !in RemoveChar(s, c)
  {
    if s != [] {
      RemoveCharRemoves(s[1..], c, d);
    }
  }

  /** The normalised code has no space and no hyphen left. */
  lemma StripRemovesSeparators(code: string)
    ensures ' ' !in StripSpacesAndHyphens(code) && '-' !in StripSpacesAndHyphens(code)
  {
    RemoveCharRemoves(code, ' ', '-');
    RemoveCharRemoves(RemoveChar(code, ' '), '-', ' ');
  }

  /** A code without separators is sent unchanged. */
  lemma StripKeepsPlainCode(code: string)
    requires ' ' !in code && '-' !in code
    ensures StripSpacesAndHyphens(code) == code
  {
    RemoveCharAbsent(code, ' ');
    RemoveCharAbsent(code, '-');
  }

  /** Normalising twice is normalising once. */
  lemma StripIdempotent(code: string)
    ensures StripSpacesAndHyphens(StripSpacesAndHyphens(code)) == StripSpacesAndHyphens(code)
  {
    StripRemovesSeparators(code);
    StripKeepsPlainCode(StripSpacesAndHyphens(code));
  }

  lemma {:induction false} RemoveCharCounts(s: string, c: char)
    ensures multiset(RemoveChar(s, c))[c] == 0
    ensures forall x {:trigger multiset(s)[x]} :: x != c ==> multiset(RemoveChar(s, c))[x] == multiset(s)[x]
  {
    if s != [] {
      RemoveCharCounts(s[1..], c);
      assert s == [s[0]] + s[1..];
    }
  }

  /** Every character other than a separator occurs as often in the normalised code as in the typed one. */
  lemma StripKeepsOtherCharacters(code: string, x: char)
    requires !IsSeparator(x)
    ensures multiset(StripSpacesAndHyphens(code))[x] == multiset(code)[x]
  {
    RemoveCharCounts(code, ' ');
    RemoveCharCounts(RemoveChar(code, ' '), '-');
  }
}
