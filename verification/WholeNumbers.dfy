/** Arithmetic on whole numbers is a lawful instance of the decimal library, so the theorems about lawful ones speak of
    something. */
module WholeNumbers {
  import opened Ast
  import opened Operations
  import opened Labels

  /** The number that is written in these digits. */
  function ReadDigits(s: string): Option<nat> {
    if s == "" || !('0' <= s[|s| - 1] <= '9') then None
    else
      var last := (s[|s| - 1] - '0') as nat;
      if |s| == 1 then Some(last)
      else
        match ReadDigits(s[..|s| - 1])
        case None => None
        case Some(n) => Some(10 * n + last)
  }

  function Read(s: string): Option<real> {
    if s != "" && s[0] == '-' then
      match ReadDigits(s[1..])
      case None => None
      case Some(n) => Some(-(n as real))
    else
      match ReadDigits(s)
      case None => None
      case Some(n) => Some(n as real)
  }

  function Show(x: real): string {
    if x < 0.0 then ['-'] + Itoa((-x).Floor) else Itoa(x.Floor)
  }

  /** Whole numbers; a quotient that is not whole is rounded. */
  function Whole(): Decimals {
    Decimals((x: real, y: real) => if y == 0.0 then 0.0 else (x / y).Floor as real,
             (x: real, y: real) => 0.0, (x: real, y: real) => 0.0, (op: UnOp, x: real) => 0.0,
             (x: real) => x.Floor, x => Show(x), s => Read(s))
  }

  lemma {:induction false} ReadItoa(n: nat)
    ensures ReadDigits(Itoa(n)) == Some(n)
  {
    if n >= 10 {
      ReadItoa(n / 10);
      assert Itoa(n)[..|Itoa(n)| - 1] == Itoa(n / 10);
    }
  }

  lemma ReadNatural(n: nat)
    ensures Read(Itoa(n)) == Some(n as real)
  {
    ReadItoa(n);
    ItoaDigits(n);
    assert Itoa(n)[0] in Itoa(n);
  }

  predicate IsWhole(x: real) {
    x == x.Floor as real
  }

  lemma IntIsWhole(k: int)
    ensures IsWhole(k as real) && (k as real).Floor == k
  {
  }

  lemma ReadsWhole(s: string)
    ensures Read(s).Some? ==> IsWhole(Read(s).value)
  {
    if Read(s).Some? {
      if s[0] == '-' {
        var k: int := ReadDigits(s[1..]).value;
        IntIsWhole(-k);
      } else {
        IntIsWhole(ReadDigits(s).value);
      }
    }
  }

  lemma Negated(k: int)
    ensures -(k as real) == (-k) as real
  {
  }

  lemma ShowNegative(k: int)
    requires k < 0
    ensures Show(k as real) == ['-'] + Itoa(-k)
  {
    Negated(k);
    IntIsWhole(-k);
  }

  lemma ShowWhole(k: int)
    ensures Read(Show(k as real)) == Some(k as real)
  {
    if k < 0 {
      ShowNegative(k);
      assert Show(k as real)[1..] == Itoa(-k);
      ReadItoa(-k);
      Negated(-k);
    } else {
      IntIsWhole(k);
      ReadNatural(k);
    }
  }

  /** Exactly the whole numbers are printed so that they can be read. */
  lemma ShownIffWhole(x: real)
    ensures Whole().Shown(x) <==> IsWhole(x)
  {
    assert Whole().Shown(x) <==> Read(Show(x)) == Some(x);
    ReadsWhole(Show(x));
    ShowWhole(x.Floor);
  }

  ghost predicate WholeResult(v: Option<Value>) {
    v.Some? && v.value.N? ==> IsWhole(v.value.num)
  }

  lemma OperatorsKeepWhole(j: int, k: int, op: BinOp)
    ensures WholeResult(RunNumbers(Whole(), op, j as real, k as real))
  {
    IntIsWhole(j + k);
    IntIsWhole(j - k);
    IntIsWhole(j * k);
    assert (j as real) * (k as real) == (j * k) as real;
  }

  lemma SignsKeepWhole(k: int, op: UnOp)
    ensures WholeResult(RunUnary(Whole(), op, N(k as real)))
  {
    Negated(k);
    IntIsWhole(k);
    IntIsWhole(-k);
  }

  lemma WholeIsShown(v: Option<Value>)
    requires WholeResult(v)
    ensures Whole().ResultShown(v)
  {
    if v.Some? && v.value.N? {
      ShownIffWhole(v.value.num);
    }
  }

  lemma BinaryIsShown(op: BinOp, x: real, y: real)
    ensures Whole().BinaryShown(op, x, y)
  {
    ShownIffWhole(x);
    ShownIffWhole(y);
    if IsWhole(x) && IsWhole(y) {
      OperatorsKeepWhole(x.Floor, y.Floor, op);
      WholeIsShown(RunNumbers(Whole(), op, x, y));
    }
  }

  lemma UnaryIsShown(op: UnOp, x: real)
    ensures Whole().UnaryShown(op, x)
  {
    ShownIffWhole(x);
    if IsWhole(x) {
      SignsKeepWhole(x.Floor, op);
      WholeIsShown(RunUnary(Whole(), op, N(x)));
    }
  }

  lemma WholeIsLawful()
    ensures Whole().ShowsExactly() && Whole().ReadsNaturals() && Whole().parse("1") == Some(1.0)
  {
    ShownIffWhole(0.0);
    ShownIffWhole(1.0);
    forall t: string ensures Whole().ReadShown(t) {
      ReadsWhole(t);
      if Read(t).Some? {
        ShownIffWhole(Read(t).value);
      }
    }
    forall op, x ensures Whole().UnaryShown(op, x) {
      UnaryIsShown(op, x);
    }
    forall op, x, y ensures Whole().BinaryShown(op, x, y) {
      BinaryIsShown(op, x, y);
    }
    forall n: nat ensures Whole().parse(Itoa(n)) == Some(n as real) {
      ReadNatural(n);
    }
    ReadNatural(1);
    assert Itoa(1) == "1";
  }
}
