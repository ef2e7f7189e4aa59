/** The address record shared by the checkout screen, its delivery form and the
    profile screen, with the list operations those screens perform on it. */
module Addresses {
  import opened Optional
  import opened Seqs

  datatype AddressType = Home | Work | Other

  /** The profile's address shape; the checkout's addresses have no `line2` and no
      `isDefault`, which here is `None`. */
  datatype Address = Address(
    id: string,
    kind: AddressType,
    line1: string,
    line2: Option<string>,
    city: string,
    state: string,
    zip: string,
    isDefault: Option<bool>)

  /** An address before it has an id, as the checkout's delivery form hands it over. */
  datatype NewAddress = NewAddress(kind: AddressType, line1: string, city: string, state: string, zip: string)

  /** The submitted address with the id added to its fields. */
  function WithId(a: NewAddress, id: string): (r: Address)
    ensures r.id == id && r.kind == a.kind && r.line1 == a.line1
    ensures r.city == a.city && r.state == a.state && r.zip == a.zip
    ensures r.line2.None? && r.isDefault.None?
  {
    Address(id, a.kind, a.line1, None, a.city, a.state, a.zip, None)
  }

  predicate HasId(list: seq<Address>, id: string) {
    exists i :: 0 <= i < |list| && list[i].id == id
  }

  /** The test that keeps an address: its id differs from the one deleted. */
  function AddressIdIsNot(id: string): Address -> bool {
    (a: Address) => a.id != id
  }

  /** Deleting by id keeps, in order, every address whose id differs from `id`,
      as many times as the list holds it, and nothing else. */
  function DeleteById(list: seq<Address>, id: string): (r: seq<Address>)
    ensures IsSubsequence(r, list)
    ensures forall i :: 0 <= i < |r| ==> r[i].id != id && r[i] in list
    ensures forall i :: 0 <= i < |list| && list[i].id != id ==> list[i] in r
    ensures forall i :: 0 <= i < |list| && list[i].id != id ==> multiset(r)[list[i]] == multiset(list)[list[i]]
  {
    FilterCounts(list, AddressIdIsNot(id));
    Filter(list, AddressIdIsNot(id))
  }

  /** Deleting an id no address has leaves the list as it was. */
  lemma DeleteUnknownIsNoop(list: seq<Address>, id: string)
    requires !HasId(list, id)
    ensures DeleteById(list, id) == list
  {
    FilterKeepsAll(list, AddressIdIsNot(id));
  }

  /** Deleting the id of a just-appended address with a fresh id undoes the append. */
  lemma DeleteUndoesAppend(list: seq<Address>, a: Address)
    requires !HasId(list, a.id)
    ensures DeleteById(list + [a], a.id) == list
  {
    FilterAppend(list, [a], AddressIdIsNot(a.id));
    FilterKeepsAll(list, AddressIdIsNot(a.id));
  }

  /** Deleting never grows the list, and deleting a present id shrinks it. */
  lemma {:induction false} DeleteShrinks(list: seq<Address>, id: string)
    ensures |DeleteById(list, id)| <= |list|
    ensures HasId(list, id) ==> |DeleteById(list, id)| < |list|
    decreases |list|
  {
    if list != [] && HasId(list, id) && list[0].id != id {
      assert HasId(list[1..], id) by {
        var i :| 0 <= i < |list| && list[i].id == id;
        assert list[1..][i - 1].id == id;
      }
      DeleteShrinks(list[1..], id);
    }
  }
}
