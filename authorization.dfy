/**
 * The mandate check: a presented mandate authorizes a request against a binding
 * when the binding's realm key signed it and its role is one of the binding's
 * admin roles.
 */
module Authorization {
  import opened Controller

  /** The mandate is signed by the binding's realm and carries one of its admin roles. */
  predicate Qualifies(m: AuthenticatedMandate, binding: Binding, thumbprint: ThumbprintFunction) {
    && thumbprint(m.signer) == thumbprint(binding.realm.publicKey)
    && m.mandate.role in binding.adminRoles
  }

  /** Some presented mandate qualifies. */
  predicate Authorized(mandates: seq<AuthenticatedMandate>, binding: Binding, thumbprint: ThumbprintFunction) {
    exists i :: 0 <= i < |mandates| && Qualifies(mandates[i], binding, thumbprint)
  }

  /** `hasRole`: a linear search with early return for an exactly equal role name. */
  method HasRole(roleList: seq<string>, role: string) returns (found: bool)
    ensures found <==> role in roleList
    ensures roleList == [] ==> !found
  {
    for i := 0 to |roleList|
      invariant role !in roleList[..i]
    {
      if roleList[i] == role {
        return true;
      }
    }
    assert roleList[..|roleList|] == roleList;
    return false;
  }

  /**
   * The loop of the authenticated and action wrappers: every mandate is looked
   * at, none stops the scan, and `success` becomes true when one qualifies.
   */
  method ScanMandates(mandates: seq<AuthenticatedMandate>, binding: Binding, thumbprint: ThumbprintFunction)
    returns (success: bool)
    ensures success == Authorized(mandates, binding, thumbprint)
  {
    var realmTP := thumbprint(binding.realm.publicKey);
    success := false;
    for i := 0 to |mandates|
      invariant success == Authorized(mandates[..i], binding, thumbprint)
    {
      var mandate := mandates[i];
      var signerTP := thumbprint(mandate.signer);
      AuthorizedSnoc(mandates[..i], mandate, binding, thumbprint);
      assert mandates[..i + 1] == mandates[..i] + [mandate];
      if realmTP == signerTP {
        var hasRole := HasRole(binding.adminRoles, mandate.mandate.role);
        if hasRole {
          success := true;
        }
      }
    }
    assert mandates[..|mandates|] == mandates;
  }

  /** Appending one mandate adds exactly that mandate's qualification. */
  lemma AuthorizedSnoc(mandates: seq<AuthenticatedMandate>, m: AuthenticatedMandate, binding: Binding,
                       thumbprint: ThumbprintFunction)
    ensures Authorized(mandates + [m], binding, thumbprint)
        == (Authorized(mandates, binding, thumbprint) || Qualifies(m, binding, thumbprint))
  {
    var ms := mandates + [m];
    if Authorized(ms, binding, thumbprint) {
      var i :| 0 <= i < |ms| && Qualifies(ms[i], binding, thumbprint);
      if i < |mandates| {
        assert ms[i] == mandates[i];
      }
    }
    if Authorized(mandates, binding, thumbprint) {
      var i :| 0 <= i < |mandates| && Qualifies(mandates[i], binding, thumbprint);
      assert ms[i] == mandates[i];
    }
    if Qualifies(m, binding, thumbprint) {
      assert ms[|mandates|] == m;
    }
  }

  /** Authorization depends only on which mandates are present: some member qualifies. */
  lemma AuthorizedIffSomeMember(mandates: seq<AuthenticatedMandate>, binding: Binding, thumbprint: ThumbprintFunction)
    ensures Authorized(mandates, binding, thumbprint)
        <==> exists m :: m in mandates && Qualifies(m, binding, thumbprint)
  {
  }

  /** Reordering the presented mandates never changes the decision. */
  lemma AuthorizedIgnoresOrder(mandates: seq<AuthenticatedMandate>, reordered: seq<AuthenticatedMandate>,
                               binding: Binding, thumbprint: ThumbprintFunction)
    requires multiset(mandates) == multiset(reordered)
    ensures Authorized(mandates, binding, thumbprint) == Authorized(reordered, binding, thumbprint)
  {
    AuthorizedIffSomeMember(mandates, binding, thumbprint);
    AuthorizedIffSomeMember(reordered, binding, thumbprint);
    forall m ensures m in mandates <==> m in reordered {
      assert m in mandates <==> m in multiset(mandates);
      assert m in reordered <==> m in multiset(reordered);
    }
  }

  /** The decision over two batches of mandates is the disjunction of the two decisions. */
  lemma {:induction false} AuthorizedAppend(first: seq<AuthenticatedMandate>, second: seq<AuthenticatedMandate>,
                                            binding: Binding, thumbprint: ThumbprintFunction)
    ensures Authorized(first + second, binding, thumbprint)
        == (Authorized(first, binding, thumbprint) || Authorized(second, binding, thumbprint))
  {
    if second == [] {
      assert first + second == first;
    } else {
      var init := second[..|second| - 1];
      var last := second[|second| - 1];
      assert second == init + [last];
      assert first + second == (first + init) + [last];
      AuthorizedAppend(first, init, binding, thumbprint);
      AuthorizedSnoc(first + init, last, binding, thumbprint);
      AuthorizedSnoc(init, last, binding, thumbprint);
    }
  }

  /** No presented mandate means no authorization. */
  lemma EmptyMandatesUnauthorized(binding: Binding, thumbprint: ThumbprintFunction)
    ensures !Authorized([], binding, thumbprint)
  {
  }

  /** Mandates signed only by keys of other realms never authorize, whatever their roles. */
  lemma ForeignSignersUnauthorized(mandates: seq<AuthenticatedMandate>, binding: Binding, thumbprint: ThumbprintFunction)
    requires forall m :: m in mandates ==> thumbprint(m.signer) != thumbprint(binding.realm.publicKey)
    ensures !Authorized(mandates, binding, thumbprint)
  {
  }

  /** A mandate whose role is not literally listed never authorizes, even when the realm signed it. */
  lemma UnlistedRoleUnauthorized(m: AuthenticatedMandate, binding: Binding, thumbprint: ThumbprintFunction)
    requires m.mandate.role !in binding.adminRoles
    ensures !Authorized([m], binding, thumbprint)
  {
  }

  /** Role names are compared exactly: "Admin" is not "admin". */
  lemma RoleMatchIsCaseSensitive(signer: PublicKey, thumbprint: ThumbprintFunction)
    ensures !Authorized([AuthenticatedMandate(MandateDocument("Admin"), signer)],
                        Binding(Realm(signer), ["admin"]), thumbprint)
  {
  }
}
