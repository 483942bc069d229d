/**
 Feedback registers in general: a register takes in each symbol at its top and then steps a fixed number of times.
 What holds of every additive step is proved here once, away from machine words.
 */
module CrcRegisters {
  datatype Machine<!G, !B> = Machine(plus: (G, G) -> G, step: G -> G, steps: nat, top: B -> G)

  function Iterated<G>(f: G -> G, c: G, n: nat): G {
    if n == 0 then c else f(Iterated(f, c, n - 1))
  }

  /** All the steps that follow one symbol. */
  function Stepped<G, B>(m: Machine<G, B>, c: G): G { Iterated(m.step, c, m.steps) }

  function Fed<G, B>(m: Machine<G, B>, c: G, symbol: B): G {
    Stepped(m, m.plus(c, m.top(symbol)))
  }

  function Register<G, B>(m: Machine<G, B>, c: G, symbols: seq<B>): G {
    if symbols == [] then c
    else var last := |symbols| - 1; Fed(m, Register(m, c, symbols[..last]), symbols[last])
  }

  lemma RegisterGrows<G, B>(m: Machine<G, B>, c: G, symbols: seq<B>, i: nat)
    requires i < |symbols|
    ensures Register(m, c, symbols[..i + 1]) == Fed(m, Register(m, c, symbols[..i]), symbols[i])
  {
    assert symbols[..i + 1][..i] == symbols[..i];
  }

  lemma {:induction false} RegisterConcat<G, B>(m: Machine<G, B>, c: G, a: seq<B>, b: seq<B>)
    ensures Register(m, c, a + b) == Register(m, Register(m, c, a), b)
  {
    if b == [] {
      assert a + b == a;
    } else {
      var last := |b| - 1;
      assert (a + b)[..|a| + last] == a + b[..last];
      RegisterConcat(m, c, a, b[..last]);
    }
  }

  // ---------------------------------------------------------------------------------------------
  // Addition and additive steps
  // ---------------------------------------------------------------------------------------------

  ghost predicate Abelian<G(!new)>(plus: (G, G) -> G) {
    && (forall x, y :: plus(x, y) == plus(y, x))
    && (forall x, y, z :: plus(plus(x, y), z) == plus(x, plus(y, z)))
  }

  lemma Exchange<G(!new)>(plus: (G, G) -> G, a: G, b: G, c: G, d: G)
    requires Abelian(plus)
    ensures plus(plus(a, b), plus(c, d)) == plus(plus(a, c), plus(b, d))
  {
    assert plus(plus(a, b), plus(c, d)) == plus(a, plus(b, plus(c, d)));
    assert plus(b, plus(c, d)) == plus(plus(b, c), d) == plus(plus(c, b), d) == plus(c, plus(b, d));
  }

  ghost predicate Additive<G(!new)>(plus: (G, G) -> G, f: G -> G) {
    forall x, y :: f(plus(x, y)) == plus(f(x), f(y))
  }

  lemma {:induction false} IteratedIsAdditive<G(!new)>(plus: (G, G) -> G, f: G -> G, a: G, b: G, n: nat)
    requires Additive(plus, f)
    ensures Iterated(f, plus(a, b), n) == plus(Iterated(f, a, n), Iterated(f, b, n))
  {
    if n > 0 {
      IteratedIsAdditive(plus, f, a, b, n - 1);
    }
  }

  function Sum<B>(plus: (B, B) -> B, a: seq<B>, b: seq<B>): (r: seq<B>)
    requires |a| == |b|
    ensures |r| == |a|
  {
    seq(|a|, i requires 0 <= i < |a| => plus(a[i], b[i]))
  }

  /** Feeding the sum of two messages gives the sum of the registers. */
  lemma {:induction false} RegisterIsAdditive<G(!new), B(!new)>(m: Machine<G, B>, add: (B, B) -> B, c: G, d: G,
                                                                a: seq<B>, b: seq<B>)
    requires Abelian(m.plus) && Additive(m.plus, m.step) && |a| == |b|
    requires forall x, y :: m.top(add(x, y)) == m.plus(m.top(x), m.top(y))
    ensures Register(m, m.plus(c, d), Sum(add, a, b)) == m.plus(Register(m, c, a), Register(m, d, b))
  {
    if a != [] {
      var last := |a| - 1;
      RegisterIsAdditive(m, add, c, d, a[..last], b[..last]);
      assert Sum(add, a, b)[..last] == Sum(add, a[..last], b[..last]);
      var c1, d1 := Register(m, c, a[..last]), Register(m, d, b[..last]);
      Exchange(m.plus, c1, d1, m.top(a[last]), m.top(b[last]));
      IteratedIsAdditive(m.plus, m.step, m.plus(c1, m.top(a[last])), m.plus(d1, m.top(b[last])), m.steps);
    }
  }

  // ---------------------------------------------------------------------------------------------
  // Steps that lose nothing
  // ---------------------------------------------------------------------------------------------

  /** Within the registers that can occur, different ones stay different. */
  ghost predicate Faithful<G(!new)>(inside: G -> bool, f: G -> G) {
    && (forall x :: inside(x) ==> inside(f(x)))
    && (forall x, y :: inside(x) && inside(y) && f(x) == f(y) ==> x == y)
  }

  lemma {:induction false} IteratedIsFaithful<G(!new)>(inside: G -> bool, f: G -> G, a: G, b: G, n: nat)
    requires Faithful(inside, f) && inside(a) && inside(b)
    ensures inside(Iterated(f, a, n)) && inside(Iterated(f, b, n))
    ensures Iterated(f, a, n) == Iterated(f, b, n) ==> a == b
  {
    if n > 0 {
      IteratedIsFaithful(inside, f, a, b, n - 1);
    }
  }

  ghost predicate Keeps<G(!new), B(!new)>(m: Machine<G, B>, inside: G -> bool) {
    && Faithful(inside, m.step)
    && (forall c, x :: inside(c) ==> inside(m.plus(c, m.top(x))))
    && (forall c, d, x :: m.plus(c, m.top(x)) == m.plus(d, m.top(x)) ==> c == d)
  }

  lemma {:induction false} RegisterStaysInside<G(!new), B(!new)>(m: Machine<G, B>, inside: G -> bool, c: G,
                                                                 symbols: seq<B>)
    requires Keeps(m, inside) && inside(c)
    ensures inside(Register(m, c, symbols))
  {
    if symbols != [] {
      var last := |symbols| - 1;
      RegisterStaysInside(m, inside, c, symbols[..last]);
      var c1 := m.plus(Register(m, c, symbols[..last]), m.top(symbols[last]));
      IteratedIsFaithful(inside, m.step, c1, c1, m.steps);
    }
  }

  lemma LawfulStaysInside<G(!new), B(!new)>(m: Machine<G, B>, inside: G -> bool, middle: B -> G, low: B -> G, c: G,
                                            symbols: seq<B>)
    requires StandingOf(m, inside, middle, low).Lawful? && inside(c)
    ensures inside(Register(m, c, symbols))
  {
    RegisterStaysInside(m, inside, c, symbols);
  }

  /** `add` on symbols is what `plus` is on registers, and `zero` plus itself is `zero`. */
  ghost function Adding<G(!new), B(!new)>(m: Machine<G, B>, add: (B, B) -> B, zero: G): Standing {
    if m.plus(zero, zero) == zero && (forall x, y :: m.top(add(x, y)) == m.plus(m.top(x), m.top(y)))
    then Lawful else Unlawful
  }

  lemma LawfulIsAdditive<G(!new), B(!new)>(m: Machine<G, B>, inside: G -> bool, middle: B -> G, low: B -> G,
                                           add: (B, B) -> B, zero: G, a: seq<B>, b: seq<B>)
    requires StandingOf(m, inside, middle, low).Lawful? && Adding(m, add, zero).Lawful? && |a| == |b|
    ensures Register(m, zero, Sum(add, a, b)) == m.plus(Register(m, zero, a), Register(m, zero, b))
  {
    RegisterIsAdditive(m, add, zero, zero, a, b);
  }

  /** The same symbols fed to different registers never bring them together. */
  lemma {:induction false} RegisterIsFaithful<G(!new), B(!new)>(m: Machine<G, B>, inside: G -> bool, c: G, d: G,
                                                                symbols: seq<B>)
    requires Keeps(m, inside) && inside(c) && inside(d)
    requires Register(m, c, symbols) == Register(m, d, symbols)
    ensures c == d
  {
    if symbols != [] {
      var last := |symbols| - 1;
      RegisterStaysInside(m, inside, c, symbols[..last]);
      RegisterStaysInside(m, inside, d, symbols[..last]);
      var c1, d1 := Register(m, c, symbols[..last]), Register(m, d, symbols[..last]);
      IteratedIsFaithful(inside, m.step, m.plus(c1, m.top(symbols[last])), m.plus(d1, m.top(symbols[last])), m.steps);
      RegisterIsFaithful(m, inside, c, d, symbols[..last]);
    }
  }

  // ---------------------------------------------------------------------------------------------
  // Three symbols at a time
  // ---------------------------------------------------------------------------------------------

  /** `middle` and `low` place a symbol one and two places below the top. */
  ghost predicate MovesUp<G(!new), B(!new)>(m: Machine<G, B>, middle: B -> G, low: B -> G) {
    forall x :: Stepped(m, middle(x)) == m.top(x) && Stepped(m, low(x)) == middle(x)
  }

  function Word<G, B>(m: Machine<G, B>, middle: B -> G, low: B -> G, symbols: seq<B>): G
    requires |symbols| == 3
  {
    m.plus(m.plus(m.top(symbols[0]), middle(symbols[1])), low(symbols[2]))
  }

  datatype Standing = Lawful | Unlawful

  /** All the laws at once: a machine whose addition, step and placing of symbols behave as a CRC register's do. */
  ghost function StandingOf<G(!new), B(!new)>(m: Machine<G, B>, inside: G -> bool, middle: B -> G, low: B -> G): Standing
  {
    if && Abelian(m.plus) && Additive(m.plus, m.step) && Keeps(m, inside) && MovesUp(m, middle, low)
       && (forall x, symbols {:trigger m.plus(x, Word(m, middle, low, symbols))} ::
             |symbols| == 3 && inside(x) ==> inside(m.plus(x, Word(m, middle, low, symbols))))
    then Lawful else Unlawful
  }

  lemma SteppedIsAdditive<G(!new), B(!new)>(m: Machine<G, B>, a: G, b: G)
    requires Additive(m.plus, m.step)
    ensures Stepped(m, m.plus(a, b)) == m.plus(Stepped(m, a), Stepped(m, b))
  {
    IteratedIsAdditive(m.plus, m.step, a, b, m.steps);
  }

  function ThriceStepped<G, B>(m: Machine<G, B>, c: G): G { Stepped(m, Stepped(m, Stepped(m, c))) }

  /** Feeding three symbols is adding their word to the register and stepping on past all three. */
  lemma ThreeSymbols<G(!new), B(!new)>(m: Machine<G, B>, middle: B -> G, low: B -> G, c: G, symbols: seq<B>)
    requires Abelian(m.plus) && Additive(m.plus, m.step) && MovesUp(m, middle, low) && |symbols| == 3
    ensures Register(m, c, symbols) == ThriceStepped(m, m.plus(c, Word(m, middle, low, symbols)))
  {
    var h, mid, l := m.top(symbols[0]), middle(symbols[1]), low(symbols[2]);
    RegisterOfThree(m, c, symbols);
    var u := m.plus(c, h);
    SteppedIsAdditive(m, u, mid);
    var v := m.plus(u, mid);
    SteppedIsAdditive(m, v, l);
    SteppedIsAdditive(m, Stepped(m, v), Stepped(m, l));
    assert m.plus(v, l) == m.plus(m.plus(c, m.plus(h, mid)), l) == m.plus(c, m.plus(m.plus(h, mid), l));
  }

  lemma RegisterOfThree<G, B>(m: Machine<G, B>, c: G, symbols: seq<B>)
    requires |symbols| == 3
    ensures Register(m, c, symbols) == Fed(m, Fed(m, Fed(m, c, symbols[0]), symbols[1]), symbols[2])
  {
    assert symbols[..2][..1] == symbols[..1];
    assert Register(m, c, symbols[..1]) == Fed(m, c, symbols[0]);
  }

  /** Stepping past three symbols loses nothing either. */
  lemma ThriceSteppedIsFaithful<G(!new), B(!new)>(m: Machine<G, B>, inside: G -> bool, a: G, b: G)
    requires Faithful(inside, m.step) && inside(a) && inside(b)
    ensures ThriceStepped(m, a) == ThriceStepped(m, b) ==> a == b
  {
    IteratedIsFaithful(inside, m.step, a, b, m.steps);
    IteratedIsFaithful(inside, m.step, Stepped(m, a), Stepped(m, b), m.steps);
    IteratedIsFaithful(inside, m.step, Stepped(m, Stepped(m, a)), Stepped(m, Stepped(m, b)), m.steps);
  }

  /**
   Two messages with the same register that differ only inside three consecutive symbols have the same word there.
   */
  lemma SameRegisterSameWord<G(!new), B(!new)>(m: Machine<G, B>, inside: G -> bool, middle: B -> G, low: B -> G, c: G,
                                               before: seq<B>, a: seq<B>, b: seq<B>, after: seq<B>)
    requires StandingOf(m, inside, middle, low).Lawful? && |a| == |b| == 3 && inside(c)
    requires Register(m, c, before + a + after) == Register(m, c, before + b + after)
    ensures exists x ::
              inside(x) && m.plus(x, Word(m, middle, low, a)) == m.plus(x, Word(m, middle, low, b))
  {
    var x := Register(m, c, before);
    RegisterStaysInside(m, inside, c, before);
    RegisterConcat(m, c, before + a, after);
    RegisterConcat(m, c, before + b, after);
    RegisterConcat(m, c, before, a);
    RegisterConcat(m, c, before, b);
    RegisterStaysInside(m, inside, x, a);
    RegisterStaysInside(m, inside, x, b);
    RegisterIsFaithful(m, inside, Register(m, x, a), Register(m, x, b), after);
    ThreeSymbols(m, middle, low, x, a);
    ThreeSymbols(m, middle, low, x, b);
    ThriceSteppedIsFaithful(m, inside, m.plus(x, Word(m, middle, low, a)), m.plus(x, Word(m, middle, low, b)));
  }

  lemma {:induction false} ZeroIsIterated<G>(f: G -> G, zero: G, n: nat)
    requires f(zero) == zero
    ensures Iterated(f, zero, n) == zero
  {
    if n > 0 {
      ZeroIsIterated(f, zero, n - 1);
    }
  }

  /** A message followed by three symbols leaves nothing exactly when their word cancels the message's register. */
  lemma NothingIsLeftExactlyWhen<G(!new), B(!new)>(m: Machine<G, B>, inside: G -> bool, middle: B -> G, low: B -> G,
                                                   zero: G, message: seq<B>, tail: seq<B>)
    requires StandingOf(m, inside, middle, low).Lawful? && inside(zero) && m.step(zero) == zero && |tail| == 3
    ensures Register(m, zero, message + tail) == zero
            <==> m.plus(Register(m, zero, message), Word(m, middle, low, tail)) == zero
  {
    var x := Register(m, zero, message);
    RegisterStaysInside(m, inside, zero, message);
    RegisterConcat(m, zero, message, tail);
    ThreeSymbols(m, middle, low, x, tail);
    ZeroIsIterated(m.step, zero, m.steps);
    ThriceSteppedIsFaithful(m, inside, m.plus(x, Word(m, middle, low, tail)), zero);
  }
}
