/**
 The four Secrets of a project's token signing: the private key for GoTrue, the public key for
 PostgREST, and a signed token for each role. A pass may stop at any API call, and a call may take
 effect although its caller saw an error.
 */
module JwtSecrets {
  import opened Wrappers
  import opened JwtKeys

  datatype Role = ServiceRole | Anon

  /** A stored token. `Signed` stands for any signature that verifies with `signer` alone. */
  datatype Token = EmptyToken | Unparsable | Signed(role: Role, exp: Option<int>, signer: PublicKey)

  /** `keys` is None without the Secret, Some(None) when its jwk-set is empty. */
  datatype Store = Store(keys: Option<Option<Document>>, verification: Option<Jwk>, tokens: map<Role, Token>)

  const SECOND: int := 1_000_000_000
  const LIFETIME: int := 365 * 24 * 3600 * SECOND
  const THRESHOLD: int := 30 * 24 * 3600 * SECOND

  /** The exp claim, in whole seconds, of a token whose claims are built at `now` (nanoseconds). */
  function Expiry(now: int): int {
    (now + LIFETIME) / SECOND
  }

  predicate ExpiringSoon(t: Token, now: int) {
    match t
    case EmptyToken => true
    case Unparsable => true
    case Signed(_, exp, _) => exp.Some? && exp.value * SECOND - now < THRESHOLD
  }

  /** Clock readings are in nanoseconds, the exp claim in seconds. */
  const DAY: int := 86_400_000_000_000

  /** A token that can be read and has no end, or one at least thirty days off. */
  predicate Lasts(t: Token, now: int) {
    t.Signed? && (t.exp.None? || t.exp.value * 1_000_000_000 >= now + 30 * DAY)
  }

  /** A token of this role and key whose end is 365 days off, cut to whole seconds. */
  predicate IssuedAt(t: Token, r: Role, k: PublicKey, now: int) {
    && t.Signed? && t.role == r && t.signer == k && t.exp.Some?
    && t.exp.value * 1_000_000_000 <= now + 365 * DAY < (t.exp.value + 1) * 1_000_000_000
  }

  lemma ExpiringIff(t: Token, now: int)
    ensures ExpiringSoon(t, now) <==> !Lasts(t, now)
  {
  }

  lemma ExpiryIs(r: Role, k: PublicKey, now: int)
    ensures IssuedAt(Signed(r, Some(Expiry(now)), k), r, k, now)
  {
  }

  // One pass

  datatype Call =
    | GetKeys | CreateKeys | GetVerification | CreateVerification
    | GetToken(r: Role) | DeleteToken(r: Role) | CreateToken(r: Role)

  /** `Lost`: the call took effect, the caller saw an error. A crash is a refusal that ends the pass. */
  datatype Answer = Done | Refused | Lost

  /** What a pass meets: a key it may have to use, clock readings, and answers other than `Done`. */
  datatype Inputs = Inputs(
    generated: PrivateKey, claimed: map<Role, int>, checked: map<Role, int>, calls: map<Call, Answer>)

  predicate ValidInputs(i: Inputs) {
    Valid(i.generated) && (forall r: Role :: r in i.claimed && r in i.checked)
  }

  function Of(i: Inputs, c: Call): Answer {
    if c in i.calls then i.calls[c] else Done
  }

  predicate Effective(x: Answer) {
    x.Done? || x.Lost?
  }

  function KeyPass(s: Store, i: Inputs): (Store, Option<PrivateKey>)
    requires ValidInputs(i)
  {
    if !Of(i, GetKeys).Done? then (s, None)
    else if s.keys.Some? then
      if s.keys.value.None? then (s, None)
      else
        var k := ParsePrivateKey(s.keys.value.value);
        (s, if k.Ok? then Some(k.value) else None)
    else
      var x := Of(i, CreateKeys);
      (if Effective(x) then s.(keys := Some(Some(PrivateKeyToJwkSet(i.generated)))) else s,
       if x.Done? then Some(i.generated) else None)
  }

  function VerificationPass(s: Store, k: PrivateKey, i: Inputs): (Store, bool)
    requires Valid(k)
  {
    if !Of(i, GetVerification).Done? then (s, false)
    else if s.verification.Some? then (s, true)
    else
      var x := Of(i, CreateVerification);
      (if Effective(x) then s.(verification := Some(PublicKeyToJwk(k.pub))) else s, x.Done?)
  }

  function TokenPass(s: Store, k: PrivateKey, r: Role, i: Inputs): (Store, bool)
    requires ValidInputs(i)
  {
    if !Of(i, GetToken(r)).Done? then (s, false)
    else if r in s.tokens && !ExpiringSoon(s.tokens[r], i.checked[r]) then (s, true)
    else if r in s.tokens && !Of(i, DeleteToken(r)).Done? then
      (if Effective(Of(i, DeleteToken(r))) then s.(tokens := s.tokens - {r}) else s, false)
    else
      var x := Of(i, CreateToken(r));
      var cleared := s.(tokens := s.tokens - {r});
      (if Effective(x) then cleared.(tokens := cleared.tokens[r := Signed(r, Some(Expiry(i.claimed[r])), k.pub)]) else cleared,
       x.Done?)
  }

  function Pass(s: Store, i: Inputs): (Store, bool)
    requires ValidInputs(i)
  {
    var k := KeyPass(s, i);
    if k.1.None? then (k.0, false)
    else
      PassKeyValid(s, i);
      var v := VerificationPass(k.0, k.1.value, i);
      if !v.1 then v
      else
        var t := TokenPass(v.0, k.1.value, ServiceRole, i);
        if !t.1 then t else TokenPass(t.0, k.1.value, Anon, i)
  }

  lemma PassKeyValid(s: Store, i: Inputs)
    requires ValidInputs(i)
    ensures KeyPass(s, i).1.Some? ==> Valid(KeyPass(s, i).1.value)
  {
  }

  class ProjectSecrets {
    var keys: Option<Option<Document>>
    var verification: Option<Jwk>
    var tokens: map<Role, Token>

    constructor ()
      ensures View() == Store(None, None, map[])
    {
      keys, verification, tokens := None, None, map[];
    }

    function View(): Store
      reads this
    {
      Store(keys, verification, tokens)
    }

    method EnsureVerificationKey(k: PrivateKey, i: Inputs) returns (ok: bool)
      requires Valid(k)
      modifies this
      ensures (View(), ok) == VerificationPass(old(View()), k, i)
    {
      if !Of(i, GetVerification).Done? {
        return false;
      }
      if verification.Some? {
        return true;
      }
      var x := Of(i, CreateVerification);
      if Effective(x) {
        verification := Some(PublicKeyToJwk(k.pub));
      }
      ok := x.Done?;
    }

    method EnsureRoleKeySecret(k: PrivateKey, r: Role, i: Inputs) returns (ok: bool)
      requires ValidInputs(i)
      modifies this
      ensures (View(), ok) == TokenPass(old(View()), k, r, i)
      ensures keys == old(keys) && verification == old(verification) && tokens - {r} == old(tokens) - {r}
      ensures ok ==> r in tokens
      ensures ok ==>
        if r in old(tokens) && Lasts(old(tokens)[r], i.checked[r]) then tokens[r] == old(tokens)[r]
        else IssuedAt(tokens[r], r, k.pub, i.claimed[r])
      ensures !ok && r in tokens ==>
        (r in old(tokens) && tokens[r] == old(tokens)[r]) || IssuedAt(tokens[r], r, k.pub, i.claimed[r])
    {
      ExpiryIs(r, k.pub, i.claimed[r]);
      if r in tokens {
        ExpiringIff(tokens[r], i.checked[r]);
      }
      hide Expiry, ExpiringSoon, Lasts, IssuedAt, Valid;
      if !Of(i, GetToken(r)).Done? {
        return false;
      }
      if r in tokens {
        if !ExpiringSoon(tokens[r], i.checked[r]) {
          return true;
        }
        var x := Of(i, DeleteToken(r));
        if Effective(x) {
          tokens := tokens - {r};
        }
        if !x.Done? {
          return false;
        }
      }
      assert tokens == old(tokens) - {r};
      var x := Of(i, CreateToken(r));
      if Effective(x) {
        tokens := tokens[r := Signed(r, Some(Expiry(i.claimed[r])), k.pub)];
      }
      ok := x.Done?;
    }

    method ReconcileJwtKeys(i: Inputs) returns (ok: bool)
      requires ValidInputs(i)
      modifies this
      ensures (View(), ok) == Pass(old(View()), i)
    {
      hide VerificationPass, TokenPass;
      var k := i.generated;
      if !Of(i, GetKeys).Done? {
        return false;
      }
      if keys.Some? {
        if keys.value.None? {
          return false;
        }
        var parsed := ParsePrivateKey(keys.value.value);
        if parsed.Err? {
          return false;
        }
        k := parsed.value;
      } else {
        var x := Of(i, CreateKeys);
        if Effective(x) {
          keys := Some(Some(PrivateKeyToJwkSet(k)));
        }
        if !x.Done? {
          return false;
        }
      }
      ok := EnsureVerificationKey(k, i);
      if !ok {
        return;
      }
      ok := EnsureRoleKeySecret(k, ServiceRole, i);
      if !ok {
        return;
      }
      ok := EnsureRoleKeySecret(k, Anon, i);
    }
  }

  // Consistency

  /** The private key the store holds, if it holds one that can be used. */
  function StoredKey(s: Store): Option<PrivateKey> {
    if s.keys.None? || s.keys.value.None? then None
    else
      var k := ParsePrivateKey(s.keys.value.value);
      if k.Ok? then Some(k.value) else None
  }

  predicate TokenFrom(t: Token, k: PrivateKey, r: Role) {
    t.Signed? && t.signer == k.pub && t.role == r
  }

  /** Whatever derived Secret exists comes from the one stored private key. */
  ghost predicate Consistent(s: Store) {
    && (s.keys.Some? ==> StoredKey(s).Some?)
    && (s.verification.Some? ==> StoredKey(s).Some? && ReadPublicKey(s.verification.value) == Some(StoredKey(s).value.pub))
    && (forall r :: r in s.tokens ==> StoredKey(s).Some? && TokenFrom(s.tokens[r], StoredKey(s).value, r))
  }

  lemma KeyPassStores(s: Store, i: Inputs)
    requires ValidInputs(i)
    ensures var p := KeyPass(s, i);
      && p.0.verification == s.verification && p.0.tokens == s.tokens
      && (s.keys.Some? ==> p.0 == s)
      && (p.1.Some? ==> StoredKey(p.0) == p.1)
      && (p.0.keys.Some? && s.keys.None? ==> StoredKey(p.0) == Some(i.generated))
  {
    PrivateKeyRoundTrip(i.generated);
    hide PrivateKeyToJwkSet, ParsePrivateKey, Valid;
  }

  lemma VerificationStores(s: Store, k: PrivateKey, i: Inputs)
    requires Valid(k)
    ensures var p := VerificationPass(s, k, i);
      && p.0.keys == s.keys && p.0.tokens == s.tokens
      && (s.verification.Some? ==> p.0 == s)
      && (s.verification.None? && p.0.verification.Some? ==> ReadPublicKey(p.0.verification.value) == Some(k.pub))
      && (p.1 ==> p.0.verification.Some?)
  {
    ValidExponent(k);
    PublicKeyRoundTrip(k.pub);
    hide PublicKeyToJwk, ReadPublicKey, Valid;
  }

  /** What becomes of role `q`'s token when role `r` is seen to. */
  lemma TokenStores(s: Store, k: PrivateKey, r: Role, i: Inputs, q: Role)
    requires ValidInputs(i)
    ensures var p := TokenPass(s, k, r, i);
      && p.0.keys == s.keys && p.0.verification == s.verification
      && (q != r ==> (q in p.0.tokens <==> q in s.tokens) && (q in s.tokens ==> p.0.tokens[q] == s.tokens[q]))
      && (r in p.0.tokens ==>
            || (r in s.tokens && p.0.tokens[r] == s.tokens[r])
            || p.0.tokens[r] == Signed(r, Some(Expiry(i.claimed[r])), k.pub))
      && (p.1 ==>
            && r in p.0.tokens
            && (r in s.tokens && Lasts(s.tokens[r], i.checked[r]) ==> p.0.tokens[r] == s.tokens[r])
            && (r !in s.tokens || !Lasts(s.tokens[r], i.checked[r]) ==>
                  p.0.tokens[r] == Signed(r, Some(Expiry(i.claimed[r])), k.pub)))
  {
    if r in s.tokens {
      ExpiringIff(s.tokens[r], i.checked[r]);
    }
    hide Expiry, ExpiringSoon, Lasts, Valid;
  }

  lemma KeyPassKeeps(s: Store, i: Inputs)
    requires ValidInputs(i) && Consistent(s)
    ensures Consistent(KeyPass(s, i).0)
    ensures s.keys.Some? ==> KeyPass(s, i).0.keys == s.keys
    ensures KeyPass(s, i).1.Some? ==> StoredKey(KeyPass(s, i).0) == KeyPass(s, i).1
  {
    KeyPassStores(s, i);
    hide KeyPass, ParsePrivateKey, ReadPublicKey, Valid;
  }

  lemma VerificationKeeps(s: Store, k: PrivateKey, i: Inputs)
    requires Valid(k) && Consistent(s) && StoredKey(s) == Some(k)
    ensures var p := VerificationPass(s, k, i).0;
      Consistent(p) && p.keys == s.keys && StoredKey(p) == Some(k)
  {
    VerificationStores(s, k, i);
    hide VerificationPass, ParsePrivateKey, ReadPublicKey, Valid;
  }

  lemma TokenKeeps(s: Store, k: PrivateKey, r: Role, i: Inputs)
    requires ValidInputs(i) && Consistent(s) && StoredKey(s) == Some(k)
    ensures var p := TokenPass(s, k, r, i).0;
      Consistent(p) && p.keys == s.keys && StoredKey(p) == Some(k)
  {
    var p := TokenPass(s, k, r, i).0;
    hide TokenPass, ParsePrivateKey, ReadPublicKey, ValidInputs, Expiry;
    TokenStores(s, k, r, i, r);
    forall q | q in p.tokens
      ensures TokenFrom(p.tokens[q], k, q)
    {
      TokenStores(s, k, r, i, q);
    }
  }

  /** However a pass is cut short, it keeps the store consistent and never replaces a stored key. */
  lemma PassKeeps(s: Store, i: Inputs)
    requires ValidInputs(i) && Consistent(s)
    ensures Consistent(Pass(s, i).0)
    ensures s.keys.Some? ==> Pass(s, i).0.keys == s.keys
  {
    hide KeyPass, VerificationPass, TokenPass, Consistent, StoredKey, ValidInputs, Valid;
    var k := KeyPass(s, i);
    KeyPassKeeps(s, i);
    PassKeyValid(s, i);
    if k.1.Some? {
      var v := VerificationPass(k.0, k.1.value, i);
      VerificationKeeps(k.0, k.1.value, i);
      TokenKeeps(v.0, k.1.value, ServiceRole, i);
      TokenKeeps(TokenPass(v.0, k.1.value, ServiceRole, i).0, k.1.value, Anon, i);
    }
  }

  datatype Action =
    | Reconcile(i: Inputs)
    | VerificationDeleted          // outside deletion, as operators rotate what derives from the key
    | TokenDeleted(r: Role)

  predicate ValidAction(a: Action) {
    a.Reconcile? ==> ValidInputs(a.i)
  }

  function After(s: Store, a: Action): Store
    requires ValidAction(a)
  {
    match a
    case Reconcile(i) => Pass(s, i).0
    case VerificationDeleted => s.(verification := None)
    case TokenDeleted(r) => s.(tokens := s.tokens - {r})
  }

  function Run(s: Store, actions: seq<Action>): Store
    requires forall j :: 0 <= j < |actions| ==> ValidAction(actions[j])
    decreases |actions|
  {
    if actions == [] then s else Run(After(s, actions[0]), actions[1..])
  }

  const EMPTY: Store := Store(None, None, map[])

  lemma AfterKeeps(s: Store, a: Action)
    requires ValidAction(a) && Consistent(s)
    ensures Consistent(After(s, a))
    ensures s.keys.Some? ==> After(s, a).keys == s.keys
  {
    hide Pass, StoredKey, ReadPublicKey, TokenFrom, ValidInputs;
    if a.Reconcile? {
      PassKeeps(s, a.i);
    } else {
      assert StoredKey(After(s, a)) == StoredKey(s) by {
        SameKeys(s, After(s, a));
      }
    }
  }

  lemma SameKeys(s: Store, t: Store)
    requires s.keys == t.keys
    ensures StoredKey(s) == StoredKey(t)
  {
  }

  lemma {:induction false} RunKeeps(s: Store, actions: seq<Action>)
    requires Consistent(s) && forall j :: 0 <= j < |actions| ==> ValidAction(actions[j])
    ensures Consistent(Run(s, actions))
    ensures s.keys.Some? ==> Run(s, actions).keys == s.keys
    decreases |actions|
  {
    hide Consistent, After, ValidAction;
    if actions != [] {
      AfterKeeps(s, actions[0]);
      RunKeeps(After(s, actions[0]), actions[1..]);
    }
  }

  /**
   In every run of passes that may stop anywhere, with derived Secrets deleted by others at will,
   all derived Secrets come from one private key, and the stored key never changes once stored.
   */
  lemma EveryRunConsistent(before: seq<Action>, after: seq<Action>)
    requires forall j :: 0 <= j < |before| ==> ValidAction(before[j])
    requires forall j :: 0 <= j < |after| ==> ValidAction(after[j])
    ensures Consistent(Run(EMPTY, before)) && Consistent(Run(Run(EMPTY, before), after))
    ensures Run(EMPTY, before).keys.Some? ==> Run(Run(EMPTY, before), after).keys == Run(EMPTY, before).keys
  {
    assert Consistent(EMPTY);
    hide Consistent, ValidAction;
    RunKeeps(EMPTY, before);
    RunKeeps(Run(EMPTY, before), after);
  }

  /** PostgREST accepts a token exactly if the key that signed it is the one it reads. */
  predicate Accepts(verification: Jwk, t: Token) {
    t.Signed? && ReadPublicKey(verification) == Some(t.signer)
  }

  lemma ConsistentTokensAccepted(s: Store, r: Role)
    requires Consistent(s) && s.verification.Some? && r in s.tokens
    ensures Accepts(s.verification.value, s.tokens[r])
  {
    hide ReadPublicKey, StoredKey;
  }

  // Successful passes

  /** The key a successful pass signs with. */
  function PassKey(s: Store, i: Inputs): PrivateKey {
    if StoredKey(s).Some? then StoredKey(s).value else i.generated
  }

  /** A token a successful pass leaves for `r`: kept if it was not expiring, else newly signed. */
  predicate Renewed(before: Store, after: Store, r: Role, i: Inputs)
    requires ValidInputs(i)
  {
    && r in after.tokens
    && (if r in before.tokens && Lasts(before.tokens[r], i.checked[r]) then after.tokens[r] == before.tokens[r]
        else after.tokens[r] == Signed(r, Some(Expiry(i.claimed[r])), PassKey(before, i).pub))
  }

  lemma SuccessfulPass(s: Store, i: Inputs)
    requires ValidInputs(i) && Pass(s, i).1
    ensures var t := Pass(s, i).0;
      && StoredKey(t) == Some(PassKey(s, i))
      && t.verification.Some?
      && (if s.verification.Some? then t.verification == s.verification
          else ReadPublicKey(t.verification.value) == Some(PassKey(s, i).pub))
      && Renewed(s, t, ServiceRole, i) && Renewed(s, t, Anon, i)
  {
    var k := KeyPass(s, i);
    KeyPassStores(s, i);
    PassKeyValid(s, i);
    KeyPassUses(s, i);
    hide KeyPass, VerificationPass, TokenPass, StoredKey, Valid, ReadPublicKey, Lasts, Expiry, PassKey;
    var v := VerificationPass(k.0, k.1.value, i);
    VerificationStores(k.0, k.1.value, i);
    var t := TokenPass(v.0, k.1.value, ServiceRole, i);
    TokenStores(v.0, k.1.value, ServiceRole, i, ServiceRole);
    TokenStores(v.0, k.1.value, ServiceRole, i, Anon);
    TokenStores(t.0, k.1.value, Anon, i, Anon);
    TokenStores(t.0, k.1.value, Anon, i, ServiceRole);
    SameKeys(k.0, Pass(s, i).0);
  }

  predicate Answered(i: Inputs, c: Call) {
    c !in i.calls || i.calls[c].Done?
  }

  /** All that seeing to this role's token calls is answered: look, and if it must go, delete and create. */
  predicate TokenAnswered(s: Store, r: Role, i: Inputs)
    requires ValidInputs(i)
  {
    && Answered(i, GetToken(r))
    && ((r in s.tokens && Lasts(s.tokens[r], i.checked[r]))
        || (Answered(i, CreateToken(r)) && (r in s.tokens ==> Answered(i, DeleteToken(r)))))
  }

  lemma TokenSucceedsIff(s: Store, k: PrivateKey, r: Role, i: Inputs)
    requires ValidInputs(i)
    ensures TokenPass(s, k, r, i).1 <==> TokenAnswered(s, r, i)
  {
    if r in s.tokens {
      ExpiringIff(s.tokens[r], i.checked[r]);
    }
    hide Expiry, ExpiringSoon, Lasts, Valid;
  }

  /** A pass succeeds exactly if it has a key that can be read or made and every call it makes is answered. */
  lemma SuccessIff(s: Store, i: Inputs)
    requires ValidInputs(i)
    ensures Pass(s, i).1
            <==> && Answered(i, GetKeys) && (if s.keys.Some? then StoredKey(s).Some? else Answered(i, CreateKeys))
                 && Answered(i, GetVerification) && (s.verification.Some? || Answered(i, CreateVerification))
                 && TokenAnswered(s, ServiceRole, i) && TokenAnswered(s, Anon, i)
  {
    KeyPassStores(s, i);
    PassKeyValid(s, i);
    KeySucceedsIff(s, i);
    hide TokenPass, StoredKey, Valid, KeyPass, PublicKeyToJwk;
    var k := KeyPass(s, i);
    if k.1.Some? {
      var v := VerificationPass(k.0, k.1.value, i);
      TokenSucceedsIff(v.0, k.1.value, ServiceRole, i);
      TokenStores(v.0, k.1.value, ServiceRole, i, Anon);
      TokenSucceedsIff(TokenPass(v.0, k.1.value, ServiceRole, i).0, k.1.value, Anon, i);
    }
  }

  lemma KeySucceedsIff(s: Store, i: Inputs)
    requires ValidInputs(i)
    ensures KeyPass(s, i).1.Some?
            <==> Answered(i, GetKeys) && if s.keys.Some? then StoredKey(s).Some? else Answered(i, CreateKeys)
  {
    hide ParsePrivateKey, PrivateKeyToJwkSet, Valid;
  }

  lemma KeyPassUses(s: Store, i: Inputs)
    requires ValidInputs(i)
    ensures KeyPass(s, i).1.Some? ==> KeyPass(s, i).1.value == PassKey(s, i)
  {
  }

  /**
   A successful pass keeps a token that lasts thirty days from when it was looked at, and has replaced
   any other, the unreadable included, by one of the role signed with the stored key for 365 days.
   */
  lemma TokensKeptOrIssued(s: Store, i: Inputs, r: Role)
    requires ValidInputs(i) && Pass(s, i).1
    ensures var t := Pass(s, i).0;
      && r in t.tokens && StoredKey(t).Some?
      && (if r in s.tokens && Lasts(s.tokens[r], i.checked[r]) then t.tokens[r] == s.tokens[r]
          else IssuedAt(t.tokens[r], r, StoredKey(t).value.pub, i.claimed[r]))
  {
    SuccessfulPass(s, i);
    ExpiryIs(r, PassKey(s, i).pub, i.claimed[r]);
    hide Pass, PassKey, StoredKey, Lasts, IssuedAt, ExpiringSoon, Expiry, Valid;
  }

  /**
   After a successful pass each role has a token with thirty days left when it was looked at, as long
   as the clock did not go back by 335 days between building the claims and looking.
   */
  lemma TokensHaveThirtyDays(s: Store, i: Inputs, r: Role)
    requires ValidInputs(i) && Pass(s, i).1
    ensures var t := Pass(s, i).0;
      && r in t.tokens && t.tokens[r].Signed?
      && (i.checked[r] <= i.claimed[r] + 335 * DAY - 1_000_000_000 && t.tokens[r].exp.Some? ==>
            t.tokens[r].exp.value * 1_000_000_000 >= i.checked[r] + 30 * 86_400_000_000_000)
  {
    TokensKeptOrIssued(s, i, r);
    hide Pass, StoredKey, Valid;
  }

  /** The derived Secrets of `s` that a pass with inputs `i` keeps all come from key `k`. */
  ghost predicate KeptComeFrom(s: Store, i: Inputs, k: PrivateKey)
    requires ValidInputs(i)
  {
    && (s.verification.Some? ==> ReadPublicKey(s.verification.value) == Some(k.pub))
    && (forall r: Role :: KeptTokenFrom(s, i, k, r))
  }

  predicate KeptTokenFrom(s: Store, i: Inputs, k: PrivateKey, r: Role)
    requires ValidInputs(i)
  {
    r in s.tokens && Lasts(s.tokens[r], i.checked[r]) ==> TokenFrom(s.tokens[r], k, r)
  }

  lemma RenewedFromIff(s: Store, t: Store, i: Inputs, r: Role)
    requires ValidInputs(i) && Renewed(s, t, r, i)
    ensures TokenFrom(t.tokens[r], PassKey(s, i), r) <==> KeptTokenFrom(s, i, PassKey(s, i), r)
  {
    hide PassKey, Lasts, Expiry, ValidInputs;
  }

  /**
   From any store whatever, a successful pass leaves a consistent one if and only if the derived
   Secrets it kept came from the key it used.
   */
  lemma SuccessConsistentIff(s: Store, i: Inputs)
    requires ValidInputs(i) && Pass(s, i).1
    ensures Consistent(Pass(s, i).0) <==> KeptComeFrom(s, i, PassKey(s, i))
  {
    hide Pass, PassKey, StoredKey, ReadPublicKey, Renewed, KeptTokenFrom, TokenFrom, ValidInputs;
    SuccessfulPass(s, i);
    var t := Pass(s, i).0;
    TokensRenewed(s, t, i);
    forall r: Role
      ensures r in t.tokens && (TokenFrom(t.tokens[r], PassKey(s, i), r) <==> KeptTokenFrom(s, i, PassKey(s, i), r))
    {
      assert r == ServiceRole || r == Anon;
      RenewedFromIff(s, t, i, r);
    }
  }

  lemma TokensRenewed(s: Store, t: Store, i: Inputs)
    requires ValidInputs(i) && Renewed(s, t, ServiceRole, i) && Renewed(s, t, Anon, i)
    ensures ServiceRole in t.tokens && Anon in t.tokens
  {
  }

  /** Deleting the private key itself breaks what derives from it, unless the same key is drawn again. */
  lemma DeletedKeyDiverges(s: Store, i: Inputs)
    requires ValidInputs(i) && Consistent(s) && s.verification.Some?
    requires Pass(s.(keys := None), i).1
    ensures Consistent(Pass(s.(keys := None), i).0) <==> i.generated.pub == StoredKey(s).value.pub
  {
    var u := s.(keys := None);
    assert PassKey(u, i) == i.generated;
    hide Pass, ReadPublicKey, Lasts, ParsePrivateKey, ValidInputs;
    SuccessConsistentIff(u, i);
    if i.generated.pub == StoredKey(s).value.pub {
      assert forall r: Role :: KeptTokenFrom(u, i, i.generated, r);
    }
  }

  /** A key Secret that cannot be read stops every pass before it changes anything. */
  lemma UnreadableKeyStops(s: Store, i: Inputs)
    requires ValidInputs(i) && s.keys.Some? && StoredKey(s).None?
    ensures Pass(s, i) == (s, false)
  {
  }
}
