/**
 Back-references, as values: instances point at owners (plugin loaders or
 clients) and each owner keeps the set of instances that refer to it.  The same
 laws serve both kinds of owner (maubot/loader/abc.py, maubot/client.py).
 */
module References {

  /** An object; two objects with the same id are still two objects. */
  type Ref = nat

  type Id = string

  /** A loader or a client: its id and its `references`. */
  datatype Owner = Owner(id: Id, references: set<Ref>)

  type Owners = map<Ref, Owner>

  /** The object is the one its cache holds under its id. */
  predicate Registered(owners: Owners, ids: map<Id, Ref>, o: Ref) {
    o in owners && owners[o].id in ids && ids[owners[o].id] == o
  }

  /** The cache of owners holds objects under their own ids. */
  predicate CacheOfOwners(owners: Owners, ids: map<Id, Ref>) {
    forall k | k in ids :: ids[k] in owners && owners[ids[k]].id == k
  }

  /**
   Both directions of the reference graph, for one kind of owner.  `ptr` is the
   pointer field of each instance, `want` the id it stands for, `live` the
   instances that have not been deleted.
   */
  ghost predicate Links(ptr: map<Ref, Ref>, want: map<Ref, Id>, live: set<Ref>, owners: Owners, ids: map<Id, Ref>) {
    && CacheOfOwners(owners, ids)
    && live <= want.Keys
    && (forall i | i in live && i in ptr ::
          Registered(owners, ids, ptr[i]) && owners[ptr[i]].id == want[i] && i in owners[ptr[i]].references)
    && (forall o, i | o in owners && i in owners[o].references ::
          i in live && i in ptr && ptr[i] == o)
  }

  /** `references.add` */
  function Add(owners: Owners, o: Ref, i: Ref): Owners
    requires o in owners
  {
    owners[o := owners[o].(references := owners[o].references + {i})]
  }

  /** `references.remove`, which raises a KeyError unless the element is there. */
  function Remove(owners: Owners, o: Ref, i: Ref): Owners
    requires o in owners && i in owners[o].references
  {
    owners[o := owners[o].(references := owners[o].references - {i})]
  }

  /** `if self.owner: self.owner.references.remove(self)` */
  function RemoveFrom(owners: Owners, ptr: map<Ref, Ref>, i: Ref): Owners
    requires i in ptr ==> ptr[i] in owners && i in owners[ptr[i]].references
  {
    if i in ptr then Remove(owners, ptr[i], i) else owners
  }

  lemma {:induction false} AttachKeeps(
    ptr: map<Ref, Ref>, want: map<Ref, Id>, live: set<Ref>, owners: Owners, ids: map<Id, Ref>, i: Ref, o: Ref)
    requires Links(ptr, want, live, owners, ids) && i in live
    requires Registered(owners, ids, o) && owners[o].id == want[i] && (i in ptr ==> ptr[i] == o)
    ensures Links(ptr[i := o], want, live, Add(owners, o, i), ids)
  {
  }

  /** Pointing an instance at another owner: out of the old set, into the new one. */
  lemma {:induction false} SwitchKeeps(
    ptr: map<Ref, Ref>, want: map<Ref, Id>, live: set<Ref>, owners: Owners, ids: map<Id, Ref>, i: Ref, o: Ref)
    requires Links(ptr, want, live, owners, ids) && i in live && Registered(owners, ids, o)
    requires i in ptr ==> ptr[i] in owners && i in owners[ptr[i]].references
    ensures o in RemoveFrom(owners, ptr, i)
    ensures Add(RemoveFrom(owners, ptr, i), o, i).Keys == owners.Keys
    ensures Links(ptr[i := o], want[i := owners[o].id], live, Add(RemoveFrom(owners, ptr, i), o, i), ids)
  {
  }

  lemma {:induction false} NewOwnerKeeps(
    ptr: map<Ref, Ref>, want: map<Ref, Id>, live: set<Ref>, owners: Owners, ids: map<Id, Ref>, o: Ref, k: Id)
    requires Links(ptr, want, live, owners, ids) && o !in owners && k !in ids
    ensures Links(ptr, want, live, owners[o := Owner(k, {})], ids[k := o])
  {
    var owners', ids' := owners[o := Owner(k, {})], ids[k := o];
    forall p | p != o
      ensures Registered(owners', ids', p) <==> Registered(owners, ids, p)
    {
    }
  }

  /** A guarded delete: an owner that nothing refers to leaves its cache. */
  lemma {:induction false} DropOwnerKeeps(
    ptr: map<Ref, Ref>, want: map<Ref, Id>, live: set<Ref>, owners: Owners, ids: map<Id, Ref>, o: Ref)
    requires Links(ptr, want, live, owners, ids) && Registered(owners, ids, o) && owners[o].references == {}
    ensures Links(ptr, want, live, owners, ids - {owners[o].id})
  {
    var ids' := ids - {owners[o].id};
    forall p | p != o
      ensures Registered(owners, ids', p) <==> Registered(owners, ids, p)
    {
    }
  }

  lemma {:induction false} BirthKeeps(
    ptr: map<Ref, Ref>, want: map<Ref, Id>, live: set<Ref>, owners: Owners, ids: map<Id, Ref>, i: Ref, k: Id)
    requires Links(ptr, want, live, owners, ids) && i !in live && i !in ptr
    ensures Links(ptr, want[i := k], live + {i}, owners, ids)
  {
  }

  lemma {:induction false} DeathKeeps(
    ptr: map<Ref, Ref>, want: map<Ref, Id>, live: set<Ref>, owners: Owners, ids: map<Id, Ref>, i: Ref)
    requires Links(ptr, want, live, owners, ids) && i in live
    requires i in ptr ==> ptr[i] in owners && i in owners[ptr[i]].references
    ensures Links(ptr, want, live - {i}, RemoveFrom(owners, ptr, i), ids)
  {
  }
}
