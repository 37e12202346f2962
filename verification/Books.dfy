// Balance books: finite maps from an address to an amount, read with a default of zero, and the
// total over a book. Every ledger of the project (the tracked balances of the state machines, the
// FLIP contracts of the migration) is one of these.
module Books {

  type Book<A> = map<A, int>

  function At<A>(b: Book<A>, a: A): int {
    if a in b then b[a] else 0
  }

  // Moves an amount between two addresses; moving to oneself changes no balance.
  function Move<A(!new)>(b: Book<A>, from: A, to: A, amount: int): (r: Book<A>)
    ensures forall a :: At(r, a) == At(b, a) - (if a == from then amount else 0) + (if a == to then amount else 0)
  {
    var debited := b[from := At(b, from) - amount];
    debited[to := At(debited, to) + amount]
  }

  /** What a transfer brings an account, or takes from it. */
  function Flow<A(==)>(a: A, from: A, to: A, amount: int): int {
    (if a == to then amount else 0) - if a == from then amount else 0
  }

  ghost predicate NonNegative<A(!new)>(b: Book<A>) {
    forall a :: At(b, a) >= 0
  }

  ghost function First<A>(b: Book<A>): (a: A)
    requires b.Keys != {}
    ensures a in b
  {
    var a :| a in b.Keys;
    a
  }

  // The total over a book.
  ghost function Sum<A>(b: Book<A>): int
    decreases b.Keys
  {
    if b.Keys == {} then 0 else b[First(b)] + Sum(b - {First(b)})
  }

  // The total does not depend on which address is taken out first.
  lemma {:induction false} SumWithout<A>(b: Book<A>, a: A)
    requires a in b
    ensures Sum(b) == b[a] + Sum(b - {a})
    decreases b.Keys
  {
    var first := First(b);
    if first == a {
    } else {
      SumWithout(b - {first}, a);
      SumWithout(b - {a}, first);
      assert b - {first} - {a} == b - {a} - {first};
    }
  }

  lemma {:induction false} SumPut<A>(b: Book<A>, a: A, amount: int)
    ensures Sum(b[a := amount]) == Sum(b) - At(b, a) + amount
  {
    SumWithout(b[a := amount], a);
    if a in b {
      SumWithout(b, a);
      assert b[a := amount] - {a} == b - {a};
    } else {
      assert b[a := amount] - {a} == b;
    }
  }

  // A transfer conserves the total.
  lemma {:induction false} SumMove<A(!new)>(b: Book<A>, from: A, to: A, amount: int)
    ensures Sum(Move(b, from, to, amount)) == Sum(b)
  {
    SumPut(b, from, At(b, from) - amount);
    var debited := b[from := At(b, from) - amount];
    SumPut(debited, to, At(debited, to) + amount);
  }

  lemma {:induction false} SumOfZeros<A(!new)>(b: Book<A>)
    requires forall a :: At(b, a) == 0
    ensures Sum(b) == 0
    decreases b.Keys
  {
    if b.Keys == {} {
    } else {
      var a := First(b);
      assert At(b, a) == 0;
      forall x ensures At(b - {a}, x) == 0 {
        assert At(b, x) == 0;
      }
      SumOfZeros(b - {a});
    }
  }

  // Books that agree at every address have the same total: entries of zero do not count.
  lemma {:induction false} SumAgree<A(!new)>(b: Book<A>, c: Book<A>)
    requires forall a :: At(b, a) == At(c, a)
    ensures Sum(b) == Sum(c)
    decreases b.Keys
  {
    if b.Keys == {} {
      SumOfZeros(c);
    } else {
      var a := First(b);
      SumWithout(b, a);
      SumPut(c, a, 0);
      forall x ensures At(b - {a}, x) == At(c[a := 0], x) {
        assert At(b, x) == At(c, x);
      }
      SumAgree(b - {a}, c[a := 0]);
    }
  }

  lemma NonNegativeWithout<A(!new)>(b: Book<A>, a: A)
    requires NonNegative(b)
    ensures NonNegative(b - {a})
  {
    forall x ensures At(b - {a}, x) >= 0 {
      assert At(b, x) >= 0;
    }
  }

  // No single balance exceeds the total of a book without negative balances.
  lemma {:induction false} SumBounds<A(!new)>(b: Book<A>, a: A)
    requires NonNegative(b)
    ensures 0 <= At(b, a) <= Sum(b)
    decreases b.Keys, a !in b
  {
    if a in b {
      SumWithout(b, a);
      NonNegativeWithout(b, a);
      if x :| x in b - {a} {
        SumBounds(b - {a}, x);
      }
    } else if x :| x in b {
      SumBounds(b, x);
    }
  }
}
