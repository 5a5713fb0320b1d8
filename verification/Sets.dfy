/** Sizes of finite sets. */
module Sets {

  /** A subset is no larger. */
  lemma {:induction false} Smaller<T>(a: set<T>, b: set<T>)
    requires a <= b
    ensures |a| <= |b|
    decreases a
  {
    if a != {} {
      var x :| x in a;
      Smaller(a - {x}, b - {x});
    }
  }

  /** Numbers below `team` are at most `team` many. */
  lemma {:induction false} TeamSize(ws: set<nat>, team: nat)
    requires forall w :: w in ws ==> w < team
    ensures |ws| <= team
    decreases team
  {
    if team == 0 {
      assert ws == {};
    } else {
      TeamSize(ws - {team - 1}, team - 1);
      assert ws <= (ws - {team - 1}) + {team - 1};
      Smaller(ws, (ws - {team - 1}) + {team - 1});
    }
  }

  ghost function ValuesBelow(f: nat -> nat, n: nat): set<nat> {
    set i | 0 <= i < n :: f(i)
  }

  /** A function without collisions takes as many values as arguments. */
  lemma {:induction false} InjectiveCount(f: nat -> nat, n: nat)
    requires forall i, j :: 0 <= i < j < n ==> f(i) != f(j)
    ensures |ValuesBelow(f, n)| == n
    decreases n
  {
    if n == 0 {
      assert ValuesBelow(f, n) == {};
    } else {
      InjectiveCount(f, n - 1);
      assert ValuesBelow(f, n) == ValuesBelow(f, n - 1) + {f(n - 1)};
    }
  }

  /** More arguments than values: two of them meet. */
  lemma Pigeonhole(f: nat -> nat, n: nat) returns (i: nat, j: nat)
    requires forall k :: 0 <= k <= n ==> f(k) < n
    ensures i < j <= n && f(i) == f(j)
  {
    if forall i, j :: 0 <= i < j < n + 1 ==> f(i) != f(j) {
      InjectiveCount(f, n + 1);
      TeamSize(ValuesBelow(f, n + 1), n);
    }
    i, j :| 0 <= i < j < n + 1 && f(i) == f(j);
  }
}
