/**
 * The browser's check on an `<input type="email">`: a value is accepted when it is a "valid e-mail
 * address" as the HTML Living Standard defines it (section 4.10.5.1.5): a non-empty local part of
 * `atext` characters and dots, one '@', and a domain of dot-separated labels of letters, digits
 * and hyphens, each starting and ending with a letter or digit and at most 63 characters long.
 */
module Email {
  import opened Wrappers

  predicate IsLetDig(c: char)
  {
    ('a' <= c <= 'z') || ('A' <= c <= 'Z') || ('0' <= c <= '9')
  }

  /** RFC 5322 `atext`: letters, digits and the listed symbols. */
  predicate IsAText(c: char)
  {
    IsLetDig(c) || c in "!#$%&'*+-/=?^_`{|}~"
  }

  predicate ValidLocal(s: string)
  {
    |s| > 0 && forall i :: 0 <= i < |s| ==> IsAText(s[i]) || s[i] == '.'
  }

  predicate ValidLabel(s: string)
  {
    && 0 < |s| <= 63
    && IsLetDig(s[0]) && IsLetDig(s[|s| - 1])
    && forall i :: 0 <= i < |s| ==> IsLetDig(s[i]) || s[i] == '-'
  }

  /** The position of the first occurrence of `c`, if any. */
  function IndexOf(s: string, c: char): (r: Option<nat>)
    ensures r.Some? ==> r.value < |s| && s[r.value] == c && c !in s[..r.value]
    ensures r.None? <==> c !in s
  {
    if s == [] then None
    else if s[0] == c then Some(0)
    else
      var rest := IndexOf(s[1..], c);
      if rest.Some? then
        assert s[..rest.value + 1] == [s[0]] + s[1..][..rest.value];
        Some(rest.value + 1)
      else None
  }

  /** One or more labels separated by single dots. */
  predicate ValidDomain(s: string)
    decreases |s|
  {
    match IndexOf(s, '.')
    case None => ValidLabel(s)
    case Some(k) => ValidLabel(s[..k]) && ValidDomain(s[k + 1..])
  }

  predicate ValidEmail(s: string)
  {
    match IndexOf(s, '@')
    case None => false
    case Some(k) => ValidLocal(s[..k]) && ValidDomain(s[k + 1..])
  }

  lemma LabelHasNoAt(s: string)
    requires ValidLabel(s)
    ensures '@' !in s
  {
    forall i | 0 <= i < |s|
      ensures s[i] != '@'
    {
      assert IsLetDig(s[i]) || s[i] == '-';
    }
  }

  /** A domain never contains '@'. */
  lemma {:induction false} DomainHasNoAt(s: string)
    requires ValidDomain(s)
    ensures '@' !in s
    decreases |s|
  {
    var k := IndexOf(s, '.');
    if k.None? {
      LabelHasNoAt(s);
    } else {
      var j := k.value;
      LabelHasNoAt(s[..j]);
      DomainHasNoAt(s[j + 1..]);
      forall i | 0 <= i < |s|
        ensures s[i] != '@'
      {
        if i < j {
          assert s[i] == s[..j][i];
        } else if i > j {
          assert s[i] == s[j + 1..][i - j - 1];
        }
      }
    }
  }

  /** An accepted address is split by its only '@' into a valid local part and a valid domain. */
  lemma ValidEmailSplits(local: string, domain: string)
    requires '@' !in local
    ensures ValidEmail(local + "@" + domain) <==> ValidLocal(local) && ValidDomain(domain)
  {
    var s := local + "@" + domain;
    assert s[|local|] == '@' && s[..|local|] == local && s[|local| + 1..] == domain;
    assert IndexOf(s, '@') == Some(|local|);
  }

  /** An accepted address contains exactly one '@', with something on each side of it. */
  lemma ValidEmailHasOneAt(s: string)
    requires ValidEmail(s)
    ensures exists k :: 0 < k < |s| - 1 && s[k] == '@' && '@' !in s[..k] && '@' !in s[k + 1..]
  {
    var k := IndexOf(s, '@').value;
    DomainHasNoAt(s[k + 1..]);
    assert 0 < k < |s| - 1 && s[k] == '@';
  }

  /** A value without '@', such as "abc", keeps the form on its step. */
  lemma NoAtRejected(s: string)
    requires '@' !in s
    ensures !ValidEmail(s)
  {
  }
}
