/** The caller's saved delivery addresses: list, add, edit and delete. Every
    call is scoped to the caller: another user's address answers 404 exactly
    like a missing one. */
module UserAddressController {
  import opened Http
  import opened Seqs
  import opened Tables

  /** The body of `store` and `update`; absent fields are `None`. */
  datatype AddressRequest = AddressRequest(
    address: Option<string>,
    city: Option<string>,
    state: Option<string>,
    postal: Option<string>,
    country: Option<string>,
    addressType: Option<string>,
    lat: Option<string>,
    lng: Option<string>,
    appartment: Option<string>,
    note: Option<string>)

  predicate Within(f: Option<string>, n: nat) {
    f.Some? ==> |f.value| <= n
  }

  /** The length limits both validators share, for the fields that are given. */
  predicate LengthsOk(req: AddressRequest) {
    && Within(req.address, 100) && Within(req.city, 100) && Within(req.state, 100)
    && Within(req.postal, 20) && Within(req.country, 150) && Within(req.addressType, 50)
    && Within(req.lat, 20) && Within(req.lng, 20) && Within(req.appartment, 50)
    && Within(req.note, 255)
  }

  /** `store` further requires these five fields. */
  predicate StoreValid(req: AddressRequest) {
    && LengthsOk(req)
    && Filled(req.address) && Filled(req.city) && Filled(req.addressType)
    && Filled(req.lat) && Filled(req.lng)
  }

  /** `index`: the caller's addresses, newest first. */
  function MyAddresses(addresses: seq<Address>, me: User): (r: seq<Address>)
    ensures forall a :: a in r <==> a in addresses && a.userId == me.id
    ensures multiset(r) == multiset(Filter(addresses, (a: Address) => a.userId == me.id))
    ensures SortedBy(r, (a: Address) => a.timestamp, false)
  {
    var mine := Filter(addresses, (a: Address) => a.userId == me.id);
    var r := SortBy(mine, (a: Address) => a.timestamp, false);
    assert forall a :: a in r <==> a in mine by {
      forall a ensures a in r <==> a in mine {
        assert a in r <==> multiset(r)[a] > 0;
        assert a in mine <==> multiset(mine)[a] > 0;
      }
    }
    r
  }

  /** The row `store` inserts: owned by the caller, optional texts default to
      the empty string, both stamps set to `now`. */
  function NewAddress(me: User, req: AddressRequest, id: nat, now: int): (out: Outcome<Address>)
    ensures out.Fail? <==> !StoreValid(req)
    ensures out.Fail? ==> out.failure == ValidationError
    ensures out.Ok? ==>
      && out.value.id == id && out.value.userId == me.id
      && out.value.address == req.address.value && out.value.city == req.city.value
      && out.value.state == req.state.GetOr("") && out.value.postal == req.postal.GetOr("")
      && out.value.country == req.country.GetOr("") && out.value.appartment == req.appartment.GetOr("")
      && out.value.note == req.note.GetOr("")
      && out.value.addressType == req.addressType.value
      && out.value.lat == req.lat.value && out.value.lng == req.lng.value
      && out.value.timestamp == now == out.value.updateTimestamp
  {
    if !StoreValid(req) then Fail(ValidationError)
    else
      Ok(Address(id, me.id, req.address.value, req.city.value, req.state.GetOr(""), req.postal.GetOr(""),
                 req.country.GetOr(""), req.addressType.value, req.lat.value, req.lng.value,
                 req.appartment.GetOr(""), req.note.GetOr(""), now, now))
  }

  /** `store`. */
  method Store(db: Db, me: User, req: AddressRequest, now: int) returns (out: Outcome<Address>)
    requires db.Valid()
    modifies db`addresses, db`nextId
    ensures db.Valid()
    ensures out == NewAddress(me, req, old(db.nextId), now)
    ensures out.Ok? ==> db.addresses == old(db.addresses) + [out.value] && db.nextId == old(db.nextId) + 1
    ensures out.Fail? ==> db.addresses == old(db.addresses) && db.nextId == old(db.nextId)
  {
    out := NewAddress(me, req, db.nextId, now);
    if out.Ok? {
      AddressAppendKeepsIds(db.addresses, out.value, db.nextId);
      db.addresses := db.addresses + [out.value];
      db.nextId := db.nextId + 1;
    }
  }

  /** A stored address is listed for its owner and for no one else. */
  lemma StoredAddressListed(addresses: seq<Address>, me: User, other: User, req: AddressRequest, id: nat, now: int)
    requires NewAddress(me, req, id, now).Ok? && other.id != me.id
    ensures NewAddress(me, req, id, now).value in MyAddresses(addresses + [NewAddress(me, req, id, now).value], me)
    ensures NewAddress(me, req, id, now).value !in MyAddresses(addresses + [NewAddress(me, req, id, now).value], other)
  {
    var a := NewAddress(me, req, id, now).value;
    assert a in addresses + [a];
  }

  /** The row after `update`: each given field replaces the stored one and
      `update_timestamp` becomes `now`; owner, id and creation stamp stay. */
  function FillAddress(a: Address, req: AddressRequest, now: int): (r: Address)
    ensures r.id == a.id && r.userId == a.userId && r.timestamp == a.timestamp
    ensures r.updateTimestamp == now
    ensures Overwrites(req.address, a.address, r.address) && Overwrites(req.city, a.city, r.city)
    ensures Overwrites(req.state, a.state, r.state) && Overwrites(req.postal, a.postal, r.postal)
    ensures Overwrites(req.country, a.country, r.country) && Overwrites(req.addressType, a.addressType, r.addressType)
    ensures Overwrites(req.lat, a.lat, r.lat) && Overwrites(req.lng, a.lng, r.lng)
    ensures Overwrites(req.appartment, a.appartment, r.appartment) && Overwrites(req.note, a.note, r.note)
  {
    a.(address := req.address.GetOr(a.address), city := req.city.GetOr(a.city),
       state := req.state.GetOr(a.state), postal := req.postal.GetOr(a.postal),
       country := req.country.GetOr(a.country), addressType := req.addressType.GetOr(a.addressType),
       lat := req.lat.GetOr(a.lat), lng := req.lng.GetOr(a.lng),
       appartment := req.appartment.GetOr(a.appartment), note := req.note.GetOr(a.note),
       updateTimestamp := now)
  }

  /** Editing twice with the same fields is editing once, at the later time. */
  lemma FillTwice(a: Address, req: AddressRequest, t1: int, t2: int)
    ensures FillAddress(FillAddress(a, req, t1), req, t2) == FillAddress(a, req, t2)
  {
  }

  /** An edit with no fields only refreshes `update_timestamp`. */
  lemma EmptyFillTouchesOnly(a: Address, now: int)
    ensures FillAddress(a, AddressRequest(None, None, None, None, None, None, None, None, None, None), now)
            == a.(updateTimestamp := now)
  {
  }

  /** The index of the caller's address with this id. */
  function OwnAddressIndex(addresses: seq<Address>, me: User, id: nat): (r: Option<nat>)
    ensures r.Some? ==> r.value < |addresses| && addresses[r.value].id == id && addresses[r.value].userId == me.id
    ensures r.None? <==> forall a :: a in addresses ==> !(a.userId == me.id && a.id == id)
  {
    match FirstIndex(addresses, (a: Address) => a.userId == me.id && a.id == id)
    case None =>
      assert forall a :: a in addresses ==> !(a.userId == me.id && a.id == id) by {
        forall a | a in addresses ensures !(a.userId == me.id && a.id == id) {
          var j :| 0 <= j < |addresses| && addresses[j] == a;
        }
      }
      None
    case Some(k) => Some(k)
  }

  /** The guard of `update`: the validator's 422, then 404. */
  function UpdateTarget(addresses: seq<Address>, me: User, id: nat, req: AddressRequest): (out: Outcome<nat>)
    ensures !LengthsOk(req) ==> out == Fail(ValidationError)
    ensures LengthsOk(req) && OwnAddressIndex(addresses, me, id).None? ==> out == Fail(NotFound)
    ensures out.Ok? <==> LengthsOk(req) && OwnAddressIndex(addresses, me, id).Some?
    ensures out.Ok? ==> out.value == OwnAddressIndex(addresses, me, id).value
  {
    if !LengthsOk(req) then Fail(ValidationError)
    else
      match OwnAddressIndex(addresses, me, id)
      case None => Fail(NotFound)
      case Some(k) => Ok(k)
  }

  /** `update`: fills the caller's address in place. */
  method Update(db: Db, me: User, id: nat, req: AddressRequest, now: int) returns (out: Outcome<Address>)
    requires db.Valid()
    modifies db`addresses
    ensures db.Valid()
    ensures match UpdateTarget(old(db.addresses), me, id, req)
      case Fail(f) => out == Fail(f) && db.addresses == old(db.addresses)
      case Ok(k) =>
        && out == Ok(FillAddress(old(db.addresses)[k], req, now))
        && db.addresses == old(db.addresses)[k := FillAddress(old(db.addresses)[k], req, now)]
  {
    var target := UpdateTarget(db.addresses, me, id, req);
    if target.Fail? {
      return Fail(target.failure);
    }
    var a := FillAddress(db.addresses[target.value], req, now);
    db.addresses := db.addresses[target.value := a];
    out := Ok(a);
  }

  lemma AddressRemoveKeepsIds(t: seq<Address>, k: nat, next: nat)
    requires k < |t| && AddressIdsOk(t, next)
    ensures AddressIdsOk(RemoveAt(t, k), next)
  {
    var r := RemoveAt(t, k);
    forall i, j | 0 <= i < j < |r|
      ensures r[i].id != r[j].id
    {
      var i' := if i < k then i else i + 1;
      var j' := if j < k then j else j + 1;
      assert r[i] == t[i'] && r[j] == t[j'];
    }
  }

  /** `destroy`: 404 unless the caller owns an address with that id; otherwise
      exactly that row goes and every other row stays. */
  method Destroy(db: Db, me: User, id: nat) returns (out: Outcome<nat>)
    requires db.Valid()
    modifies db`addresses
    ensures db.Valid()
    ensures OwnAddressIndex(old(db.addresses), me, id).None? ==> out == Fail(NotFound) && db.addresses == old(db.addresses)
    ensures OwnAddressIndex(old(db.addresses), me, id).Some? ==>
      && out == Ok(id)
      && db.addresses == RemoveAt(old(db.addresses), OwnAddressIndex(old(db.addresses), me, id).value)
      && multiset(db.addresses) == multiset(old(db.addresses)) - multiset{old(db.addresses)[OwnAddressIndex(old(db.addresses), me, id).value]}
      && forall a :: a in db.addresses ==> a.id != id
  {
    var k := OwnAddressIndex(db.addresses, me, id);
    if k.None? {
      return Fail(NotFound);
    }
    ghost var before := db.addresses;
    AddressRemoveKeepsIds(db.addresses, k.value, db.nextId);
    db.addresses := RemoveAt(db.addresses, k.value);
    forall a | a in db.addresses
      ensures a.id != id
    {
      var j :| 0 <= j < |db.addresses| && db.addresses[j] == a;
      if j < k.value {
        assert a == before[j];
      } else {
        assert a == before[j + 1];
      }
    }
    out := Ok(id);
  }
}
