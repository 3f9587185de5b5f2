/** Disposable e-mail domains: the suffix walk, over any set of listed domains. */
module Domains {
  import opened Text

  function TrimDotsLeft(s: string): string {
    if s != "" && s[0] == '.' then TrimDotsLeft(s[1..]) else s
  }

  function TrimDotsRight(s: string): (t: string)
    ensures t == "" || t[|t| - 1] != '.'
  {
    if s != "" && s[|s| - 1] == '.' then TrimDotsRight(s[..|s| - 1]) else s
  }

  function NormalizeEmailDomain(value: string): (t: string)
    ensures t == "" || t[|t| - 1] != '.'
  {
    TrimDotsRight(TrimDotsLeft(Lower(Trim(value))))
  }

  /** A suffix that starts at the beginning or just after a dot. */
  predicate DotAligned(domain: string, i: nat)
    requires i <= |domain|
  {
    i == 0 || domain[i - 1] == '.'
  }

  ghost predicate Listed(listed: set<string>, domain: string) {
    exists i :: 0 <= i < |domain| && DotAligned(domain, i) && domain[i..] in listed
  }

  /** A domain is listed exactly when a listed domain is the whole of it or what follows one of its dots. */
  lemma ListedMeans(listed: set<string>, domain: string)
    ensures Listed(listed, domain)
            <==> exists d :: d in listed && d != "" && (domain == d || EndsWith(domain, "." + d))
  {
    if Listed(listed, domain) {
      var i :| 0 <= i < |domain| && DotAligned(domain, i) && domain[i..] in listed;
      var d := domain[i..];
      if i > 0 {
        assert domain[i - 1..] == ['.'] + d && "." + d == ['.'] + d;
        assert EndsWith(domain, "." + d);
      }
      assert d in listed && d != "";
    }
    if d :| d in listed && d != "" && (domain == d || EndsWith(domain, "." + d)) {
      var i := |domain| - |d|;
      assert domain == d ==> domain[0..] == d;
      if domain != d {
        assert domain[i - 1..] == "." + d && domain[i - 1] == ("." + d)[0];
        assert domain[i..] == domain[i - 1..][1..] == d;
      }
      assert 0 <= i < |domain| && DotAligned(domain, i) && domain[i..] in listed;
    }
  }

  predicate EndsWith(s: string, tail: string) {
    |tail| <= |s| && s[|s| - |tail|..] == tail
  }

  method IndexOfDot(s: string) returns (dot: int)
    ensures -1 <= dot < |s|
    ensures dot >= 0 ==> s[dot] == '.' && '.' !in s[..dot]
    ensures dot < 0 ==> '.' !in s
  {
    dot := 0;
    while dot < |s|
      invariant 0 <= dot <= |s| && '.' !in s[..dot]
    {
      if s[dot] == '.' { return; }
      dot := dot + 1;
    }
    dot := -1;
  }

  /** True exactly when some dot-aligned suffix of the normalised domain is listed. */
  method IsDisposableEmailDomain(listed: set<string>, value: string) returns (disposable: bool)
    ensures disposable <==> Listed(listed, NormalizeEmailDomain(value))
  {
    ghost var whole := NormalizeEmailDomain(value);
    ghost var at := 0;
    var domain := NormalizeEmailDomain(value);
    while domain != ""
      invariant 0 <= at <= |whole| && domain == whole[at..] && DotAligned(whole, at)
      invariant forall i :: 0 <= i < at && DotAligned(whole, i) ==> whole[i..] !in listed
      decreases |domain|
    {
      if domain in listed {
        return true;
      }
      var dot := IndexOfDot(domain);
      forall i | at < i < |whole| && (dot < 0 || i < at + dot + 1)
        ensures !DotAligned(whole, i)
      {
        assert whole[i - 1] == domain[i - 1 - at];
        assert dot >= 0 ==> domain[i - 1 - at] in domain[..dot];
      }
      if dot < 0 {
        return false;
      }
      domain := domain[dot + 1..];
      at := at + dot + 1;
    }
    return false;
  }

  /** Whether a domain is listed does not depend on its capitals, and no dot is left at either end. */
  lemma DomainIgnoresCase(a: string, b: string)
    requires Lower(Trim(a)) == Lower(Trim(b))
    ensures NormalizeEmailDomain(a) == NormalizeEmailDomain(b)
    ensures NoCapitals(NormalizeEmailDomain(a))
  {
    hide Lower, Trim, TrimDotsLeft, TrimDotsRight;
    var lower := Lower(Trim(a));
    CaseFixedPoints(Trim(a));
    TrimDotsLeftIsPart(lower);
    TrimDotsRightIsPart(TrimDotsLeft(lower));
    var t, u := TrimDotsLeft(lower), TrimDotsRight(TrimDotsLeft(lower));
    assert forall i :: 0 <= i < |t| ==> t[i] == lower[|lower| - |t| + i];
    assert forall i :: 0 <= i < |u| ==> u[i] == t[i];
  }

  lemma TrimDotsLeftIsPart(s: string)
    ensures var t := TrimDotsLeft(s); |t| <= |s| && s[|s| - |t|..] == t && (t == "" || t[0] != '.')
  {
    if s != "" && s[0] == '.' {
      TrimDotsLeftIsPart(s[1..]);
      var t := TrimDotsLeft(s);
      assert s[1..][|s| - 1 - |t|..] == s[|s| - |t|..];
    }
  }

  lemma TrimDotsRightIsPart(s: string)
    ensures var t := TrimDotsRight(s); |t| <= |s| && s[..|t|] == t
  {
    if s != "" && s[|s| - 1] == '.' {
      TrimDotsRightIsPart(s[..|s| - 1]);
    }
  }

  // ---------- Subdomains ----------

  /** A dot-aligned suffix that is listed makes the whole listed. */
  lemma ListedSuffix(listed: set<string>, prefix: string, domain: string)
    requires Listed(listed, domain) && (prefix == "" || prefix[|prefix| - 1] == '.')
    ensures Listed(listed, prefix + domain)
  {
    var i :| 0 <= i < |domain| && DotAligned(domain, i) && domain[i..] in listed;
    var whole := prefix + domain;
    assert whole[|prefix| + i..] == domain[i..];
    assert DotAligned(whole, |prefix| + i);
  }

  lemma {:induction false} TrimLeftKeepsEnd(x: string, y: string)
    requires x != "" && !IsSpace(x[|x| - 1])
    ensures TrimLeft(x) != "" && TrimLeft(x)[|TrimLeft(x)| - 1] == x[|x| - 1]
    ensures TrimLeft(x + y) == TrimLeft(x) + y
  {
    if IsSpace(x[0]) {
      TrimLeftKeepsEnd(x[1..], y);
      assert (x + y)[1..] == x[1..] + y;
    }
  }

  lemma {:induction false} TrimRightKeepsStart(x: string, y: string)
    requires TrimRight(y) != ""
    ensures TrimRight(x + y) == x + TrimRight(y)
  {
    if IsSpace(y[|y| - 1]) {
      TrimRightKeepsStart(x, y[..|y| - 1]);
      assert (x + y)[..|x + y| - 1] == x + y[..|y| - 1];
    }
  }

  lemma LowerConcat(x: string, y: string)
    ensures Lower(x + y) == Lower(x) + Lower(y)
  {
  }

  lemma TrimDotsLeftStep(x: string, y: string)
    requires x != ""
    ensures TrimDotsLeft(x + y) == if x[0] == '.' then TrimDotsLeft(x[1..] + y) else x + y
  {
    assert (x + y)[1..] == x[1..] + y;
  }

  /** Behind a text that ends with a dot, a text loses its own leading dots only if all in front of it went. */
  lemma {:induction false} TrimDotsLeftOfDotted(x: string, y: string) returns (rest: string)
    requires x != "" && x[|x| - 1] == '.'
    ensures TrimDotsLeft(x + y) == rest + TrimDotsLeft(y) && (rest == "" || rest[|rest| - 1] == '.')
  {
    hide TrimDotsLeft;
    TrimDotsLeftStep(x, y);
    if |x| == 1 {
      rest := "";
      assert x[1..] + y == y && "" + TrimDotsLeft(y) == TrimDotsLeft(y);
    } else if x[0] == '.' {
      rest := TrimDotsLeftOfDotted(x[1..], y);
    } else {
      LeadingDots(y);
      var dots := y[..|y| - |TrimDotsLeft(y)|];
      rest := x + dots;
      assert x + y == rest + TrimDotsLeft(y);
    }
  }

  lemma {:induction false} LeadingDots(y: string)
    ensures var t := TrimDotsLeft(y);
            |t| <= |y| && y[|y| - |t|..] == t && forall i :: 0 <= i < |y| - |t| ==> y[i] == '.'
  {
    if y != "" && y[0] == '.' {
      LeadingDots(y[1..]);
      var t := TrimDotsLeft(y[1..]);
      assert forall i :: 1 <= i < |y| - |t| ==> y[i] == y[1..][i - 1];
    }
  }

  lemma {:induction false} TrimDotsRightKeepsStart(x: string, y: string)
    requires TrimDotsRight(y) != ""
    ensures TrimDotsRight(x + y) == x + TrimDotsRight(y)
  {
    if y[|y| - 1] == '.' {
      TrimDotsRightKeepsStart(x, y[..|y| - 1]);
      assert (x + y)[..|x + y| - 1] == x + y[..|y| - 1];
    }
  }

  /** Every subdomain of a listed domain is listed, whatever its spaces, dots and capitals, unless a space
      comes between the subdomain's dot and the domain: no trimming takes that away. */
  lemma SubdomainInherits(listed: set<string>, subdomain: string, domain: string)
    requires Listed(listed, NormalizeEmailDomain(domain)) && TrimLeft(domain) == domain
    ensures Listed(listed, NormalizeEmailDomain(subdomain + "." + domain))
  {
    var x := subdomain + ".";
    TrimLeftKeepsEnd(x, domain);
    var front, tail := TrimLeft(x), TrimRight(domain);
    TrimRightKeepsStart(front, domain);
    assert Trim(x + domain) == front + tail && Trim(domain) == tail;
    LowerConcat(front, tail);
    hide TrimLeft, TrimRight, Lower, TrimDotsLeft, TrimDotsRight, IsSpace;
    var rest := TrimDotsLeftOfDotted(Lower(front), Lower(tail));
    TrimDotsRightKeepsStart(rest, TrimDotsLeft(Lower(tail)));
    ListedSuffix(listed, rest, NormalizeEmailDomain(domain));
  }

  /** `strings.LastIndex(email, "@")`. */
  function LastAt(email: string): (at: int)
    ensures -1 <= at < |email|
    ensures at >= 0 ==> email[at] == '@'
    ensures forall k :: at < k < |email| ==> email[k] != '@'
  {
    if email == "" then -1
    else if email[|email| - 1] == '@' then |email| - 1
    else LastAt(email[..|email| - 1])
  }

  /** The e-mail test looks at whatever follows the last `@`. */
  method IsDisposableEmail(listed: set<string>, email: string) returns (disposable: bool)
    ensures disposable <==> 0 <= LastAt(email) && Listed(listed, NormalizeEmailDomain(email[LastAt(email) + 1..]))
  {
    var at := LastAt(email);
    if at < 0 || at == |email| - 1 {
      assert at >= 0 ==> email[at + 1..] == "";
      return false;
    }
    disposable := IsDisposableEmailDomain(listed, email[at + 1..]);
  }
}
