/**
 What the authorizing notification endpoint service promises, stated on the
 functions its methods are proved against.
 */
module AuthorizerProperties {
  import opened Influx
  import opened Authorizer

  /** `r` can be obtained from `s` by deleting items, keeping the order of the rest. */
  predicate IsSubsequence(r: seq<Endpoint>, s: seq<Endpoint>)
    decreases |s|
  {
    r == [] || (s != [] && ((r[0] == s[0] && IsSubsequence(r[1..], s[1..])) || IsSubsequence(r, s[1..])))
  }

  /** Keep(s) is an order-preserving subsequence of `s`. */
  lemma {:induction false} KeepIsSubsequence(ctx: Ctx, s: seq<Endpoint>)
    ensures IsSubsequence(Keep(ctx, s), s)
  {
    if s != [] {
      KeepIsSubsequence(ctx, s[1..]);
      if ReadAllowed(ctx, s[0]) {
        assert Keep(ctx, s)[0] == s[0];
        assert Keep(ctx, s)[1..] == Keep(ctx, s[1..]);
      } else {
        assert Keep(ctx, s) == Keep(ctx, s[1..]);
      }
    }
  }

  /** Every item of Keep(s) is one the caller may read. */
  lemma {:induction false} KeepOnlyReadable(ctx: Ctx, s: seq<Endpoint>)
    ensures forall x :: x in Keep(ctx, s) ==> ReadAllowed(ctx, x)
  {
    if s != [] {
      KeepOnlyReadable(ctx, s[1..]);
    }
  }

  /** Keep(s) holds each readable item as often as `s` does, and no other item. */
  lemma {:induction false} KeepMultiplicity(ctx: Ctx, s: seq<Endpoint>)
    ensures forall x :: multiset(Keep(ctx, s))[x] == if ReadAllowed(ctx, x) then multiset(s)[x] else 0
  {
    if s != [] {
      KeepMultiplicity(ctx, s[1..]);
      assert s == [s[0]] + s[1..];
      assert multiset(s) == multiset{s[0]} + multiset(s[1..]);
      var step := if ReadAllowed(ctx, s[0]) then [s[0]] else [];
      assert multiset(Keep(ctx, s)) == multiset(step) + multiset(Keep(ctx, s[1..]));
    }
  }

  /**
   The list call succeeds exactly when the filter is scoped, the wrapped list
   succeeds and no item's read check fails with anything but a denial.
   */
  lemma ListOkIff(ctx: Ctx, filter: Filter, listed: Result<Page>)
    ensures ListResult(ctx, filter, listed).Ok? <==>
              && Scoped(filter) && listed.Ok?
              && forall i :: 0 <= i < |listed.value.items| ==> !Fatal(ctx, listed.value.items[i])
  {
    if listed.Ok? {
      FirstFatalNoneIff(ctx, listed.value.items);
    }
  }

  /**
   A successful list call returns exactly the readable items of the wrapped
   list, in order, with their number as count.
   */
  lemma ListOkExactlyReadable(ctx: Ctx, filter: Filter, listed: Result<Page>)
    ensures ListResult(ctx, filter, listed).Ok? ==>
              var out := ListResult(ctx, filter, listed).value.items;
              && out == Keep(ctx, listed.value.items)
              && ListResult(ctx, filter, listed).value.count == |out|
              && IsSubsequence(out, listed.value.items)
              && (forall x :: x in out ==> ReadAllowed(ctx, x))
              && (forall x :: multiset(out)[x] == if ReadAllowed(ctx, x) then multiset(listed.value.items)[x] else 0)
  {
    if listed.Ok? {
      KeepIsSubsequence(ctx, listed.value.items);
      KeepOnlyReadable(ctx, listed.value.items);
      KeepMultiplicity(ctx, listed.value.items);
    }
  }

  /** The first item whose read check fails with a non-denial error aborts the list with that error. */
  lemma ListAbortsOnFirstFatal(ctx: Ctx, filter: Filter, page: Page, i: nat)
    requires Scoped(filter)
    requires i < |page.items| && Fatal(ctx, page.items[i])
    requires forall j :: 0 <= j < i ==> !Fatal(ctx, page.items[j])
    ensures ListResult(ctx, filter, Ok(page)) == Err(AuthorizeRead(ctx, page.items[i].orgID, page.items[i].id).value)
  {
    FirstFatalAt(ctx, page.items, i);
  }

  /** The count the wrapped list reports plays no part in the result. */
  lemma ListIgnoresInnerCount(ctx: Ctx, filter: Filter, items: seq<Endpoint>, c1: int, c2: int)
    ensures ListResult(ctx, filter, Ok(Page(items, c1))) == ListResult(ctx, filter, Ok(Page(items, c2)))
  {
  }

  /**
   Five endpoints of which the caller may read the first, third and fifth and
   is denied the others: the list holds exactly those three.
   */
  lemma ListOfFiveExample(ctx: Ctx, filter: Filter, e1: Endpoint, e2: Endpoint, e3: Endpoint,
                          e4: Endpoint, e5: Endpoint, count: int)
    requires Scoped(filter)
    requires ReadAllowed(ctx, e1) && ReadAllowed(ctx, e3) && ReadAllowed(ctx, e5)
    requires Denied(ctx, e2) && Denied(ctx, e4)
    ensures ListResult(ctx, filter, Ok(Page([e1, e2, e3, e4, e5], count))) == Ok(Page([e1, e3, e5], 3))
  {
    var s := [e1, e2, e3, e4, e5];
    assert Keep(ctx, s[4..]) == [e5];
    assert Keep(ctx, s[3..]) == [e5];
    assert Keep(ctx, s[2..]) == [e3, e5];
    assert Keep(ctx, s[1..]) == [e3, e5];
    assert Keep(ctx, s) == [e1, e3, e5];
    FirstFatalNoneIff(ctx, s);
  }

  /** The same five endpoints, but the check on the second fails with an error other than a denial. */
  lemma ListOfFiveAborts(ctx: Ctx, filter: Filter, e1: Endpoint, e2: Endpoint, e3: Endpoint,
                         e4: Endpoint, e5: Endpoint, count: int)
    requires Scoped(filter)
    requires ReadAllowed(ctx, e1) && ReadAllowed(ctx, e3) && ReadAllowed(ctx, e5)
    requires Fatal(ctx, e2) && Denied(ctx, e4)
    ensures ListResult(ctx, filter, Ok(Page([e1, e2, e3, e4, e5], count)))
            == Err(AuthorizeRead(ctx, e2.orgID, e2.id).value)
  {
    FirstFatalAt(ctx, [e1, e2, e3, e4, e5], 1);
  }

  /**
   A construction error is the read check's result whatever IsAllowed would
   say: two contexts that agree on validation agree on the outcome.
   */
  lemma AuthorizeReadSkipsIsAllowedOnInvalid(c1: Ctx, c2: Ctx, orgID: ID, id: ID)
    requires c1.validate(EndpointPermission(ReadAction, orgID, id)).Some?
    requires c1.validate(EndpointPermission(ReadAction, orgID, id)) == c2.validate(EndpointPermission(ReadAction, orgID, id))
    ensures AuthorizeRead(c1, orgID, id) == AuthorizeRead(c2, orgID, id)
  {
  }

  /** The same for the write check. */
  lemma AuthorizeWriteSkipsIsAllowedOnInvalid(c1: Ctx, c2: Ctx, orgID: ID, id: ID)
    requires c1.validate(EndpointPermission(WriteAction, orgID, id)).Some?
    requires c1.validate(EndpointPermission(WriteAction, orgID, id)) == c2.validate(EndpointPermission(WriteAction, orgID, id))
    ensures AuthorizeWrite(c1, orgID, id) == AuthorizeWrite(c2, orgID, id)
  {
  }

  /**
   Create depends only on the organization the new endpoint declares: two
   endpoints of the same organization meet the same check.
   */
  lemma CreateIgnoresEndpointID(ctx: Ctx, e1: Endpoint, e2: Endpoint)
    requires e1.orgID == e2.orgID
    ensures CreateGate(ctx, e1) == CreateGate(ctx, e2)
  {
  }

  /**
   The write check is made on the fetched endpoint: when write access to it is
   refused, the gate fails with that write error. WriteGate takes no payload;
   that Update, Patch and Delete apply it to the wrapped find's answer alone,
   never to the caller's payload, is stated by their ensures clauses.
   */
  lemma WriteCheckUsesFetchedEndpoint(ctx: Ctx, fetched: Endpoint)
    requires ReadAllowed(ctx, fetched) && !WriteAllowed(ctx, fetched)
    ensures WriteGate(ctx, Ok(fetched)) == AuthorizeWrite(ctx, fetched.orgID, fetched.id)
    ensures WriteGate(ctx, Ok(fetched)).Some?
  {
  }

  /**
   A context that denies every permission: no endpoint is returned by a find,
   no write passes, and a scoped list answers an empty page, not an error.
   */
  lemma {:induction false} DenyingContext(ctx: Ctx, filter: Filter, found: Result<Endpoint>, edp: Endpoint, page: Page)
    requires forall p :: ctx.validate(p).None?
    requires forall p :: ctx.isAllowed(p).Some? && ctx.isAllowed(p).value.code == EUnauthorized
    requires Scoped(filter)
    ensures FindByIDResult(ctx, found).Err?
    ensures WriteGate(ctx, found).Some?
    ensures CreateGate(ctx, edp).Some?
    ensures ListResult(ctx, filter, Ok(page)) == Ok(Page([], 0))
  {
    KeepOnlyReadable(ctx, page.items);
    if Keep(ctx, page.items) != [] {
      assert Keep(ctx, page.items)[0] in Keep(ctx, page.items);
    }
    FirstFatalNoneIff(ctx, page.items);
  }
}
