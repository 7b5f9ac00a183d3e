/** The User entity and its ORM listeners (app/models/user.py). The object
    being inserted or updated is a `User` whose fields the listeners rewrite
    in place; a column that is still unset on the Python object is None. */
module UserModel {
  import opened Values
  import opened Text

  /** `strip().lower()` applied to a truthy email; None and "" are kept. */
  function NormalizedEmail(email: Option<string>): (r: Option<string>)
    ensures email.None? ==> r.None?
    ensures email == Some("") ==> r == email
    ensures r.Some? ==> email.Some? && |r.value| <= |email.value|
    ensures r.Some? ==> IsStripped(r.value) && NoUpper(r.value)
  {
    match email
    case None => None
    case Some(e) =>
      if e == "" then email
      else
        var s := Strip(e);
        LowerNoUpper(s);
        LowerKeepsStripped(s);
        Some(Lower(s))
  }

  /** Normalising twice is normalising once. */
  lemma NormalizedEmailIdempotent(email: Option<string>)
    ensures NormalizedEmail(NormalizedEmail(email)) == NormalizedEmail(email)
  {
    match NormalizedEmail(email)
    case None =>
    case Some(n) =>
      if n != "" {
        StripFixesStripped(n);
        LowerFixesNoUpper(n);
      }
  }

  /** An email that is already trimmed and lower-case is left as it is. */
  lemma NormalizedEmailFixesNormal(e: string)
    requires IsStripped(e) && NoUpper(e)
    ensures NormalizedEmail(Some(e)) == Some(e)
  {
    if e != "" {
      StripFixesStripped(e);
      LowerFixesNoUpper(e);
    }
  }

  function DigitChar(d: nat): (c: char)
    requires d < 10
    ensures IsDigit(c)
  {
    "0123456789"[d]
  }

  lemma DigitCharInjective(a: nat, b: nat)
    requires a < 10 && b < 10 && DigitChar(a) == DigitChar(b)
    ensures a == b
  {
  }

  /** str(n) for n >= 0. */
  function ShowNat(n: nat): (r: string)
    ensures |r| >= 1
    ensures forall i :: 0 <= i < |r| ==> IsDigit(r[i])
  {
    if n < 10 then [DigitChar(n)] else ShowNat(n / 10) + [DigitChar(n % 10)]
  }

  /** Decimal notation is unambiguous. */
  lemma {:induction false} ShowNatInjective(a: nat, b: nat)
    requires ShowNat(a) == ShowNat(b)
    ensures a == b
  {
    if a < 10 && b < 10 {
      DigitCharInjective(a, b);
    } else if a >= 10 && b >= 10 {
      var sa, sb := ShowNat(a), ShowNat(b);
      assert sa[|sa| - 1] == DigitChar(a % 10) && sb[|sb| - 1] == DigitChar(b % 10);
      DigitCharInjective(a % 10, b % 10);
      assert ShowNat(a / 10) == sa[..|sa| - 1] == sb[..|sb| - 1] == ShowNat(b / 10);
      ShowNatInjective(a / 10, b / 10);
    }
  }

  /** str(n) for any int. */
  function ShowInt(n: int): (r: string)
    ensures r != [] && (r[0] == '-' || IsDigit(r[0]))
    ensures forall i :: 0 <= i < |r| ==> r[i] != ',' && r[i] != 'N'
  {
    if n < 0 then "-" + ShowNat(-n) else ShowNat(n)
  }

  /** The sign shows in the first character. */
  lemma ShowIntSign(n: int)
    ensures ShowInt(n)[0] == '-' <==> n < 0
  {
    if n >= 0 {
      assert IsDigit(ShowNat(n)[0]);
    }
  }

  lemma NegativeTail(n: int)
    requires n < 0
    ensures ShowInt(n)[1..] == ShowNat(-n)
  {
    assert ShowInt(n) == "-" + ShowNat(-n);
  }

  lemma ShowIntInjective(a: int, b: int)
    requires ShowInt(a) == ShowInt(b)
    ensures a == b
  {
    ShowIntSign(a);
    ShowIntSign(b);
    if a < 0 && b < 0 {
      NegativeTail(a);
      NegativeTail(b);
      ShowNatInjective(-a, -b);
    } else if a >= 0 && b >= 0 {
      ShowNatInjective(a, b);
    }
  }

  /** f"{value}" for an optional int: str(n) or "None". */
  function ShowOptInt(v: Option<int>): (r: string)
    ensures forall i :: 0 <= i < |r| ==> r[i] != ','
  {
    match v
    case None => "None"
    case Some(n) => ShowInt(n)
  }

  function ShowOptStr(v: Option<string>): string
  {
    match v
    case None => "None"
    case Some(s) => s
  }

  function ShowOptBool(v: Option<bool>): string
  {
    match v
    case None => "None"
    case Some(b) => if b then "True" else "False"
  }

  const ReprHead := "<User(id="
  const EmailField := ", email='"

  /** Everything __repr__ prints after the id. */
  function ReprTail(email: Option<string>, name: Option<string>, isActive: Option<bool>): (r: string)
    ensures |r| > 2 && r[0] == ',' && r[|r| - 2..] == ")>"
  {
    EmailField + ShowOptStr(email) + ReprAfterEmail(name, isActive)
  }

  /** Everything __repr__ prints after the email. */
  function ReprAfterEmail(name: Option<string>, isActive: Option<bool>): (r: string)
    ensures |r| >= 2 && r[0] == '\'' && r[|r| - 2..] == ")>"
  {
    "', name='" + ShowOptStr(name) + "', active=" + ShowOptBool(isActive) + ")>"
  }

  /** __repr__: "<User(id=…, email='…', name='…', active=…)>". */
  function ReprOf(id: Option<int>, email: Option<string>, name: Option<string>, isActive: Option<bool>)
    : string
  {
    ReprHead + ShowOptInt(id) + ReprTail(email, name, isActive)
  }

  /** Where the pieces of a repr-shaped concatenation stand. */
  lemma Pieces(h: string, w: string, f: string, e: string, rest: string)
    requires |rest| >= 2
    ensures var r := h + w + (f + e + rest);
      var k := |h| + |w| + |f|;
      && |r| > k + |e|
      && r[..|h|] == h
      && r[|h|..|h| + |w|] == w
      && r[k..k + |e|] == e
      && r[k + |e|] == rest[0]
      && r[|r| - 2..] == rest[|rest| - 2..]
  {
    var r := h + w + (f + e + rest);
    var k := |h| + |w| + |f|;
    assert r[k + |e|..] == rest;
  }

  /** Where the pieces of the repr stand. */
  lemma ReprLayout(id: Option<int>, email: Option<string>, name: Option<string>, isActive: Option<bool>)
    ensures var r := ReprOf(id, email, name, isActive);
      var w := ShowOptInt(id);
      var e := ShowOptStr(email);
      var k := |ReprHead| + |w| + |EmailField|;
      && |r| > k + |e|
      && r[..|ReprHead|] == ReprHead
      && r[|ReprHead|..|ReprHead| + |w|] == w
      && r[k..k + |e|] == e
      && r[k + |e|] == '\''
      && r[|r| - 2..] == ")>"
  {
    Pieces(ReprHead, ShowOptInt(id), EmailField, ShowOptStr(email), ReprAfterEmail(name, isActive));
  }

  /** Index of the first comma, or the length when there is none. */
  function FirstComma(s: string): (k: nat)
    ensures k <= |s|
  {
    if s == [] || s[0] == ',' then 0 else 1 + FirstComma(s[1..])
  }

  lemma {:induction false} FirstCommaAfter(a: string, x: string)
    requires ',' !in a && x != [] && x[0] == ','
    ensures FirstComma(a + x) == |a|
  {
    if a != [] {
      assert (a + x)[1..] == a[1..] + x;
      FirstCommaAfter(a[1..], x);
    }
  }

  /** Two comma-free words each followed by a comma-led rest: equal wholes
      mean equal words. */
  lemma CommaFreePrefix(a: string, x: string, b: string, y: string)
    requires ',' !in a && ',' !in b
    requires x != [] && x[0] == ',' && y != [] && y[0] == ','
    requires a + x == b + y
    ensures a == b
  {
    FirstCommaAfter(a, x);
    FirstCommaAfter(b, y);
    assert a == (a + x)[..|a|] == (b + y)[..|b|] == b;
  }

  lemma DropPrefix(h: string, p: string, q: string)
    requires h + p == h + q
    ensures p == q
  {
    assert p == (h + p)[|h|..] == (h + q)[|h|..] == q;
  }

  lemma ShowIntNotNone(n: int)
    ensures ShowInt(n) != "None"
  {
    assert ShowInt(n)[0] != 'N';
  }

  lemma ShowOptIntInjective(v1: Option<int>, v2: Option<int>)
    requires ShowOptInt(v1) == ShowOptInt(v2)
    ensures v1 == v2
  {
    if v1.Some? && v2.Some? {
      ShowIntInjective(v1.value, v2.value);
    } else if v1.Some? {
      ShowIntNotNone(v1.value);
    } else if v2.Some? {
      ShowIntNotNone(v2.value);
    }
  }

  /** A head, a comma-free word and a comma-led rest: the word is determined. */
  lemma HeadWordRest(h: string, a: string, x: string, b: string, y: string)
    requires ',' !in a && ',' !in b
    requires x != [] && x[0] == ',' && y != [] && y[0] == ','
    requires h + a + x == h + b + y
    ensures a == b
  {
    assert h + a + x == h + (a + x);
    assert h + b + y == h + (b + y);
    DropPrefix(h, a + x, b + y);
    CommaFreePrefix(a, x, b, y);
  }

  /** The repr of a user determines its id. */
  lemma ReprDeterminesId(id1: Option<int>, e1: Option<string>, n1: Option<string>, a1: Option<bool>,
                         id2: Option<int>, e2: Option<string>, n2: Option<string>, a2: Option<bool>)
    requires ReprOf(id1, e1, n1, a1) == ReprOf(id2, e2, n2, a2)
    ensures id1 == id2
  {
    var w1, w2 := ShowOptInt(id1), ShowOptInt(id2);
    assert ',' !in w1 && ',' !in w2;
    HeadWordRest(ReprHead, w1, ReprTail(e1, n1, a1), w2, ReprTail(e2, n2, a2));
    ShowOptIntInjective(id1, id2);
  }

  class User {
    var id: Option<int>
    var email: Option<string>
    var password: Option<string>
    var name: Option<string>
    var isActive: Option<bool>
    var isAdmin: Option<bool>

    constructor (email: Option<string>, password: Option<string>, name: Option<string>)
      ensures this.id.None? && this.email == email && this.password == password && this.name == name
      ensures this.isActive.None? && this.isAdmin.None?
    {
      this.id := None;
      this.email := email;
      this.password := password;
      this.name := name;
      this.isActive := None;
      this.isAdmin := None;
    }

    /** The before_insert listener: only the email is rewritten. */
    method NormalizeEmailBeforeInsert()
      modifies this`email
      ensures email == NormalizedEmail(old(email))
    {
      email := NormalizedEmail(email);
    }

    /** The before_update listener: the same rewrite as before insert. */
    method NormalizeEmailBeforeUpdate()
      modifies this`email
      ensures email == NormalizedEmail(old(email))
    {
      email := NormalizedEmail(email);
    }

    /** __repr__: the id printed right after "<User(id=", then the email
        verbatim between its quotes, and ")>" at the end. */
    function Repr(): (r: string)
      reads this
      ensures var k := |ReprHead| + |ShowOptInt(id)| + |EmailField|;
        && |r| > k + |ShowOptStr(email)|
        && r[..|ReprHead|] == ReprHead
        && r[|ReprHead|..|ReprHead| + |ShowOptInt(id)|] == ShowOptInt(id)
        && r[k..k + |ShowOptStr(email)|] == ShowOptStr(email)
        && r[k + |ShowOptStr(email)|] == '\''
        && r[|r| - 2..] == ")>"
    {
      ReprLayout(id, email, name, isActive);
      ReprOf(id, email, name, isActive)
    }
  }

  /** Saving a user and then updating it leaves the same email as saving it
      once: the second listener finds nothing left to change. */
  method InsertThenUpdate(u: User)
    modifies u`email
    ensures u.email == NormalizedEmail(old(u.email))
    ensures u.email.Some? ==> IsStripped(u.email.value) && NoUpper(u.email.value)
  {
    u.NormalizeEmailBeforeInsert();
    u.NormalizeEmailBeforeUpdate();
    NormalizedEmailIdempotent(old(u.email));
  }
}
