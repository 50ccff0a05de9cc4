/**
 * Key derivation: the composite key `guidFor(manager) + "_" + id` under which
 * a draggable or sortable and the handles that belong to it meet in the
 * registries, and the empty key used when there is no id.
 */
module Keys {
  import opened Values

  /** dnd-kit's `UniqueIdentifier`: a string or a number (integers here). */
  datatype Id = Str(s: string) | Num(n: int)

  /** JavaScript truthiness of an optional id: undefined, "" and 0 are falsy. */
  predicate Truthy(id: Option<Id>) {
    match id
    case None => false
    case Some(Str(s)) => s != ""
    case Some(Num(n)) => n != 0
  }

  function DigitChar(d: nat): char
    requires d < 10
  {
    ('0' as int + d) as char
  }

  /** Decimal digits of a natural number, most significant first. */
  function Digits(n: nat): string
    decreases n
  {
    if n < 10 then [DigitChar(n)] else Digits(n / 10) + [DigitChar(n % 10)]
  }

  /** How a template literal `${id}` renders an id. */
  function Text(id: Id): string {
    match id
    case Str(s) => s
    case Num(n) => if n < 0 then "-" + Digits(-n) else Digits(n)
  }

  /**
   * The `key` getter of the draggable, sortable and handle modifiers, for a
   * manager whose `guidFor` token is `guid`. The empty key is exactly the
   * "no identity" sentinel: it is produced for a falsy id and never for a
   * truthy one.
   */
  function DeriveKey(guid: string, id: Option<Id>): (k: string)
    ensures k == "" <==> !Truthy(id)
  {
    if !Truthy(id) then "" else guid + "_" + Text(id.value)
  }

  /** Index of the first `c` in `s`, or `|s|` when there is none. */
  function IndexOf(s: string, c: char): (i: nat)
    ensures i <= |s|
    ensures forall j :: 0 <= j < i ==> s[j] != c
    ensures i < |s| ==> s[i] == c
  {
    if s == [] then 0 else if s[0] == c then 0 else 1 + IndexOf(s[1..], c)
  }

  lemma {:induction false} DigitsAreDigits(n: nat)
    ensures |Digits(n)| >= 1
    ensures n >= 10 ==> |Digits(n)| >= 2
    ensures forall i :: 0 <= i < |Digits(n)| ==> '0' <= Digits(n)[i] <= '9'
    decreases n
  {
    if n >= 10 {
      DigitsAreDigits(n / 10);
    }
  }

  /** Distinct natural numbers print differently. */
  lemma {:induction false} DigitsInjective(m: nat, n: nat)
    requires Digits(m) == Digits(n)
    ensures m == n
    decreases m
  {
    DigitsAreDigits(m);
    DigitsAreDigits(n);
    if m >= 10 && n >= 10 {
      var s := Digits(m);
      assert Digits(m / 10) == s[..|s| - 1];
      assert Digits(n / 10) == s[..|s| - 1];
      DigitsInjective(m / 10, n / 10);
      assert DigitChar(m % 10) == s[|s| - 1] == DigitChar(n % 10);
    }
  }

  /** Distinct numeric ids render to distinct texts. */
  lemma NumTextInjective(m: int, n: int)
    requires Text(Num(m)) == Text(Num(n))
    ensures m == n
  {
    var t := Text(Num(m));
    DigitsAreDigits(if m < 0 then -m else m);
    DigitsAreDigits(if n < 0 then -n else n);
    assert m < 0 <==> t[0] == '-';
    assert n < 0 <==> t[0] == '-';
    if m < 0 {
      assert Digits(-m) == t[1..] == Digits(-n);
      DigitsInjective(-m, -n);
    } else {
      DigitsInjective(m, n);
    }
  }

  /** A string id and a number id collide when the string is the number's decimal text. */
  lemma StringAndNumberIdsShareKey(guid: string)
    ensures DeriveKey(guid, Some(Str("12"))) == DeriveKey(guid, Some(Num(12)))
  {
    assert Digits(12) == "12";
  }

  /**
   * Under one manager, two truthy ids give the same key exactly when they
   * render to the same text.
   */
  lemma KeyDeterminesIdText(guid: string, a: Option<Id>, b: Option<Id>)
    requires Truthy(a) && Truthy(b)
    ensures DeriveKey(guid, a) == DeriveKey(guid, b) <==> Text(a.value) == Text(b.value)
  {
    var ka, kb := DeriveKey(guid, a), DeriveKey(guid, b);
    if ka == kb {
      assert Text(a.value) == ka[|guid| + 1..];
      assert Text(b.value) == kb[|guid| + 1..];
    }
  }

  /** For one truthy id, two managers' keys coincide exactly when their tokens do. */
  lemma KeyDeterminesManager(g1: string, g2: string, id: Option<Id>)
    requires Truthy(id)
    ensures DeriveKey(g1, id) == DeriveKey(g2, id) <==> g1 == g2
  {
    var k1, k2 := DeriveKey(g1, id), DeriveKey(g2, id);
    if k1 == k2 {
      assert |g1| == |g2|;
      assert g1 == k1[..|g1|];
      assert g2 == k2[..|g2|];
    }
  }

  lemma {:induction false} SeparatorIndex(guid: string, rest: string)
    requires '_' !in guid
    ensures IndexOf(guid + "_" + rest, '_') == |guid|
    decreases |guid|
  {
    if guid != [] {
      assert (guid + "_" + rest)[1..] == guid[1..] + "_" + rest;
      SeparatorIndex(guid[1..], rest);
    }
  }

  /**
   * Keys of truthy ids are injective in (manager, id text) as long as
   * manager tokens contain no `_` (Ember's guids are `ember` + a counter).
   */
  lemma KeyInjective(g1: string, a: Option<Id>, g2: string, b: Option<Id>)
    requires '_' !in g1 && '_' !in g2
    requires Truthy(a) && Truthy(b)
    ensures DeriveKey(g1, a) == DeriveKey(g2, b) <==> g1 == g2 && Text(a.value) == Text(b.value)
  {
    var k1, k2 := DeriveKey(g1, a), DeriveKey(g2, b);
    if k1 == k2 {
      SeparatorIndex(g1, Text(a.value));
      SeparatorIndex(g2, Text(b.value));
      assert |g1| == |g2|;
      assert g1 == k1[..|g1|] && g2 == k2[..|g2|];
      assert Text(a.value) == k1[|g1| + 1..] && Text(b.value) == k2[|g2| + 1..];
    }
  }
}
