// Derived object names: internal/resources/names.go, and the check in
// internal/resources/secret.go that a derived name is one the API server accepts.
module Names {

  /** The eight things whose name is derived from the instance's. */
  datatype Part = SecretKeyPart | AdminPart | DataPart | MediaPart | ConsumePart | ExportPart | ValkeyPart | DbPart

  function Suffix(p: Part): string {
    match p
    case SecretKeyPart => "secret-key"
    case AdminPart => "admin"
    case DataPart => "data"
    case MediaPart => "media"
    case ConsumePart => "consume"
    case ExportPart => "export"
    case ValkeyPart => "valkey"
    case DbPart => "db"
  }

  function DerivedName(name: string, p: Part): string {
    name + "-" + Suffix(p)
  }

  /** The names as internal/resources/names.go spells them. */
  lemma NamesSpelled(name: string)
    ensures DerivedName(name, SecretKeyPart) == name + "-secret-key" && DerivedName(name, AdminPart) == name + "-admin"
    ensures DerivedName(name, DataPart) == name + "-data" && DerivedName(name, MediaPart) == name + "-media"
    ensures DerivedName(name, ConsumePart) == name + "-consume" && DerivedName(name, ExportPart) == name + "-export"
    ensures DerivedName(name, ValkeyPart) == name + "-valkey" && DerivedName(name, DbPart) == name + "-db"
  {
    Hyphenated(name, SecretKeyPart, "-secret-key");
    Hyphenated(name, AdminPart, "-admin");
    Hyphenated(name, DataPart, "-data");
    Hyphenated(name, MediaPart, "-media");
    Hyphenated(name, ConsumePart, "-consume");
    Hyphenated(name, ExportPart, "-export");
    Hyphenated(name, ValkeyPart, "-valkey");
    Hyphenated(name, DbPart, "-db");
  }

  lemma Hyphenated(name: string, p: Part, t: string)
    requires t == "-" + Suffix(p)
    ensures DerivedName(name, p) == name + t
  {
  }

  // ----- DNS-1123 subdomains -----

  const MAX_SUBDOMAIN_LENGTH := 253

  predicate IsAlnum(c: char) {
    'a' <= c <= 'z' || '0' <= c <= '9'
  }

  predicate IsLabelChar(c: char) {
    IsAlnum(c) || c == '-'
  }

  /** Lower-case letters, digits and inner hyphens. */
  predicate IsLabel(s: string) {
    && |s| > 0
    && IsAlnum(s[0])
    && IsAlnum(s[|s| - 1])
    && forall i :: 0 <= i < |s| ==> IsLabelChar(s[i])
  }

  function FirstDot(s: string): (i: nat)
    ensures i <= |s|
    ensures forall j :: 0 <= j < i ==> s[j] != '.'
    ensures i < |s| ==> s[i] == '.'
  {
    if s == "" || s[0] == '.' then 0 else 1 + FirstDot(s[1..])
  }

  /** One label, or a label, a dot and again such a text. */
  predicate IsDottedLabels(s: string)
    decreases |s|
  {
    var i := FirstDot(s);
    if i == |s| then IsLabel(s) else IsLabel(s[..i]) && IsDottedLabels(s[i + 1..])
  }

  /** A DNS-1123 subdomain, which is what the builders check of a name they derived. */
  predicate ValidName(s: string) {
    |s| <= MAX_SUBDOMAIN_LENGTH && IsDottedLabels(s)
  }

  lemma FirstDotIs(s: string, i: nat)
    requires i <= |s|
    requires forall j :: 0 <= j < i ==> s[j] != '.'
    requires i < |s| ==> s[i] == '.'
    ensures FirstDot(s) == i
  {
    var f := FirstDot(s);
    assert f < |s| ==> s[f] == '.';
  }

  /**
   * The same seen character by character, as the API server checks it: lower-case letters, digits, hyphens
   * and dots, with a letter or digit at both ends and on both sides of each dot.
   */
  predicate SubdomainChars(s: string) {
    && 0 < |s| <= 253
    && EndOfLabel(s, 0) && EndOfLabel(s, |s| - 1)
    && forall i :: 0 <= i < |s| ==> InPlace(s, i)
  }

  predicate EndOfLabel(s: string, i: int) {
    0 <= i < |s| && ('a' <= s[i] <= 'z' || '0' <= s[i] <= '9')
  }

  predicate InPlace(s: string, i: int) {
    0 <= i < |s| && (EndOfLabel(s, i) || s[i] == '-' || (s[i] == '.' && EndOfLabel(s, i - 1) && EndOfLabel(s, i + 1)))
  }

  lemma LabelIff(s: string)
    requires 0 < |s| <= 253 && FirstDot(s) == |s|
    ensures IsLabel(s) <==> SubdomainChars(s)
  {
    if IsLabel(s) {
      forall i | 0 <= i < |s| ensures InPlace(s, i) {
        assert IsLabelChar(s[i]);
      }
    } else if SubdomainChars(s) {
      forall i | 0 <= i < |s| ensures IsLabelChar(s[i]) {
        assert InPlace(s, i) && s[i] != '.';
      }
    }
  }

  lemma HeadAndRestJoin(s: string, i: nat)
    requires |s| <= 253 && i < |s| && s[i] == '.' && SubdomainChars(s[..i]) && SubdomainChars(s[i + 1..])
    ensures SubdomainChars(s)
  {
    var head, rest := s[..i], s[i + 1..];
    forall j | 0 <= j < |s| ensures InPlace(s, j) {
      if j < i {
        InPlaceInHead(s, i, j);
      } else if j == i {
        assert EndOfLabel(head, |head| - 1) && EndOfLabel(rest, 0);
        assert s[i - 1] == head[i - 1] && s[i + 1] == rest[0];
      } else {
        InPlaceInRest(s, i, j);
      }
    }
    assert s[0] == head[0] && s[|s| - 1] == rest[|rest| - 1];
  }

  lemma InPlaceInHead(s: string, i: nat, j: nat)
    requires j < i <= |s| && InPlace(s[..i], j)
    ensures InPlace(s, j)
  {
    assert s[..i][j] == s[j];
  }

  lemma InPlaceInRest(s: string, i: nat, j: nat)
    requires i < j < |s| && InPlace(s[i + 1..], j - i - 1)
    ensures InPlace(s, j)
  {
    assert s[i + 1..][j - i - 1] == s[j];
  }

  lemma HeadAndRestSplit(s: string, i: nat)
    requires i < |s| && i == FirstDot(s) && SubdomainChars(s)
    ensures SubdomainChars(s[..i]) && SubdomainChars(s[i + 1..])
  {
    var head, rest := s[..i], s[i + 1..];
    assert InPlace(s, i) && EndOfLabel(s, i - 1) && EndOfLabel(s, i + 1);
    assert head[0] == s[0] && head[|head| - 1] == s[i - 1] && rest[0] == s[i + 1] && rest[|rest| - 1] == s[|s| - 1];
    forall j | 0 <= j < |head| ensures InPlace(head, j) {
      assert InPlace(s, j) && head[j] == s[j] && s[j] != '.';
    }
    forall j | 0 <= j < |rest| ensures InPlace(rest, j) {
      RestInPlace(s, i, j);
    }
  }

  lemma RestInPlace(s: string, i: nat, j: nat)
    requires i + 1 + j < |s| && InPlace(s, i + 1 + j) && EndOfLabel(s, i + 1)
    requires s[i] == '.'
    ensures InPlace(s[i + 1..], j)
  {
    var rest := s[i + 1..];
    assert rest[j] == s[i + 1 + j];
    if rest[j] == '.' {
      assert j > 0 && rest[j - 1] == s[i + j] && rest[j + 1] == s[i + j + 2];
    }
  }

  /** What the builders take for a valid name is what the API server does. */
  lemma {:induction false} ValidNameIff(s: string)
    ensures ValidName(s) <==> SubdomainChars(s)
    decreases |s|
  {
    var i := FirstDot(s);
    if 0 < |s| <= 253 {
      if i == |s| {
        LabelIff(s);
      } else {
        if SubdomainChars(s) {
          HeadAndRestSplit(s, i);
        } else if SubdomainChars(s[..i]) && SubdomainChars(s[i + 1..]) {
          HeadAndRestJoin(s, i);
        }
        ValidNameIff(s[i + 1..]);
        if i > 0 {
          FirstDotIs(s[..i], i);
          LabelIff(s[..i]);
        }
      }
    }
  }

  lemma LabelExtends(s: string, t: string)
    requires IsLabel(s) && |t| > 0 && IsAlnum(t[|t| - 1])
    requires forall i :: 0 <= i < |t| ==> IsLabelChar(t[i])
    ensures IsLabel(s + t)
  {
    var u := s + t;
    assert u[0] == s[0] && u[|u| - 1] == t[|t| - 1];
    forall i | 0 <= i < |u| ensures IsLabelChar(u[i]) {
      assert u[i] == if i < |s| then s[i] else t[i - |s|];
    }
  }

  lemma LabelHasNoDot(s: string)
    requires IsLabel(s)
    ensures FirstDot(s) == |s|
  {
    forall i | 0 <= i < |s| ensures s[i] != '.' {
      assert IsLabelChar(s[i]);
    }
    FirstDotIs(s, |s|);
  }

  /** A label may be put in front. */
  lemma DottedJoin(head: string, rest: string)
    requires IsLabel(head) && IsDottedLabels(rest)
    ensures IsDottedLabels(head + "." + rest)
  {
    var s := head + "." + rest;
    LabelHasNoDot(head);
    forall j | 0 <= j < |head| ensures s[j] != '.' {
      assert s[j] == head[j];
    }
    FirstDotIs(s, |head|);
    assert s[..|head|] == head && s[|head| + 1..] == rest;
  }

  /** And with more than one label the first can be taken off. */
  lemma DottedSplit(s: string) returns (head: string, rest: string)
    requires IsDottedLabels(s) && FirstDot(s) < |s|
    ensures IsLabel(head) && IsDottedLabels(rest) && s == head + "." + rest
  {
    var i := FirstDot(s);
    head, rest := s[..i], s[i + 1..];
  }

  lemma SingleLabelExtends(s: string, t: string)
    requires IsDottedLabels(s) && FirstDot(s) == |s| && |t| > 0 && IsAlnum(t[|t| - 1])
    requires forall i :: 0 <= i < |t| ==> IsLabelChar(t[i])
    ensures IsDottedLabels(s + t)
  {
    LabelExtends(s, t);
    LabelHasNoDot(s + t);
  }

  lemma JoinThenExtend(head: string, rest: string, t: string)
    requires IsLabel(head) && IsDottedLabels(rest + t)
    ensures IsDottedLabels(head + "." + rest + t)
  {
    DottedJoin(head, rest + t);
    assert head + "." + rest + t == head + "." + (rest + t);
  }

  /** A hyphen and a label extend the last label of a dotted text and leave it well formed. */
  lemma {:induction false} ExtendLastLabel(s: string, t: string)
    requires IsDottedLabels(s)
    requires |t| > 0 && IsAlnum(t[|t| - 1])
    requires forall i :: 0 <= i < |t| ==> IsLabelChar(t[i])
    ensures IsDottedLabels(s + t)
    decreases |s|
  {
    if FirstDot(s) == |s| {
      SingleLabelExtends(s, t);
    } else {
      var head, rest := DottedSplit(s);
      ExtendLastLabel(rest, t);
      JoinThenExtend(head, rest, t);
    }
  }

  /** For a valid instance name the only thing that can make a derived name invalid is its length. */
  lemma DerivedNameValidIffShort(name: string, p: Part)
    requires ValidName(name)
    ensures ValidName(DerivedName(name, p)) <==> |name| + 1 + |Suffix(p)| <= 253
  {
    var t := "-" + Suffix(p);
    assert name + t == DerivedName(name, p);
    ExtendLastLabel(name, t);
  }

  /** The last, the second to last and the fourth to last character tell the suffixes apart. */
  lemma SuffixFromTail(p: Part, q: Part)
    requires Suffix(p)[|Suffix(p)| - 1] == Suffix(q)[|Suffix(q)| - 1]
    requires Suffix(p)[|Suffix(p)| - 2] == Suffix(q)[|Suffix(q)| - 2]
    requires p != DbPart && q != DbPart ==> Suffix(p)[|Suffix(p)| - 4] == Suffix(q)[|Suffix(q)| - 4]
    ensures p == q
  {
  }

  lemma TailOfDerivedName(name: string, p: Part, k: nat)
    requires 1 <= k <= |Suffix(p)|
    ensures DerivedName(name, p)[|DerivedName(name, p)| - k] == Suffix(p)[|Suffix(p)| - k]
  {
  }

  /** Two instances never derive the same name, not even for two different parts. */
  lemma DerivedNameInjective(a: string, p: Part, b: string, q: Part)
    requires DerivedName(a, p) == DerivedName(b, q)
    ensures a == b && p == q
  {
    TailOfDerivedName(a, p, 1);
    TailOfDerivedName(b, q, 1);
    TailOfDerivedName(a, p, 2);
    TailOfDerivedName(b, q, 2);
    if p != DbPart && q != DbPart {
      TailOfDerivedName(a, p, 4);
      TailOfDerivedName(b, q, 4);
    }
    SuffixFromTail(p, q);
    DerivedNamePrefix(a, p);
    DerivedNamePrefix(b, p);
  }

  lemma DerivedNamePrefix(name: string, p: Part)
    ensures DerivedName(name, p)[..|DerivedName(name, p)| - |Suffix(p)| - 1] == name
  {
  }
}
