/** Account administration one call at a time (internal/admin/repository.go, service.go). */
module AdminStore {
  import opened Basics
  import opened AdminGuard

  datatype Account = Account(phone: string, level: Level, status: Status)

  datatype AdminError = NotFound | PhoneTaken | LastSuperAdmin

  type Accounts = map<Id, Account>

  predicate IsActiveSuper(m: Accounts, id: Id) {
    id in m && m[id].level == SuperAdmin && m[id].status == Active
  }

  ghost predicate SomeActiveSuper(m: Accounts) {
    exists id :: IsActiveSuper(m, id)
  }

  ghost predicate OnlyActiveSuper(m: Accounts, id: Id) {
    IsActiveSuper(m, id) && forall o | IsActiveSuper(m, o) :: o == id
  }

  predicate PhonesUnique(m: Accounts) {
    forall a, b | a in m && b in m && m[a].phone == m[b].phone :: a == b
  }

  class Repository {
    var admins: Accounts

    ghost predicate Valid()
      reads this
    {
      PhonesUnique(admins)
    }

    constructor ()
      ensures Valid() && admins == map[]
    {
      admins := map[];
    }

    method Create(id: Id, phone: string, level: Level) returns (r: Option<AdminError>)
      requires Valid() && id !in admins
      modifies this
      ensures Valid()
      ensures r.None? <==> forall o | o in old(admins) :: old(admins)[o].phone != phone
      ensures r.None? ==> admins == old(admins)[id := Account(phone, level, Active)]
      ensures r.Some? ==> admins == old(admins) && r.value == PhoneTaken
    {
      if exists o | o in admins :: admins[o].phone == phone {
        return Some(PhoneTaken);
      }
      admins := admins[id := Account(phone, level, Active)];
      return None;
    }

    method GetByPhone(phone: string) returns (r: Option<Id>)
      requires Valid()
      ensures r.Some? ==> r.value in admins && admins[r.value].phone == phone
      ensures r.None? ==> forall o | o in admins :: admins[o].phone != phone
    {
      if o :| o in admins && admins[o].phone == phone {
        return Some(o);
      }
      return None;
    }

    /** Only the last active super admin cannot be disabled, so there is one after if there was one before. */
    method SetStatus(id: Id, s: Status) returns (r: Option<AdminError>)
      requires Valid()
      modifies this
      ensures Valid()
      ensures r == Some(NotFound) <==> id !in old(admins)
      ensures r == Some(LastSuperAdmin) <==> s == Disabled && OnlyActiveSuper(old(admins), id)
      ensures r.None? <==> id in old(admins) && (s == Active || !OnlyActiveSuper(old(admins), id))
      ensures r.None? ==> admins == old(admins)[id := old(admins)[id].(status := s)]
      ensures r.Some? ==> admins == old(admins)
      ensures SomeActiveSuper(old(admins)) ==> SomeActiveSuper(admins)
    {
      if id !in admins {
        return Some(NotFound);
      }
      if s == Disabled {
        if IsActiveSuper(admins, id) && !exists o | o in admins :: o != id && IsActiveSuper(admins, o) {
          assert OnlyActiveSuper(admins, id);
          return Some(LastSuperAdmin);
        }
      }
      ghost var was := admins;
      admins := admins[id := admins[id].(status := s)];
      if SomeActiveSuper(was) {
        ghost var o :| IsActiveSuper(was, o);
        if o == id && s == Disabled {
          o :| o in was && o != id && IsActiveSuper(was, o);
        }
        assert IsActiveSuper(admins, o);
      }
      return None;
    }

    method SetLevel(id: Id, l: Level) returns (r: Option<AdminError>)
      requires Valid()
      modifies this
      ensures Valid()
      ensures r == if id in old(admins) then None else Some(NotFound)
      ensures admins == if id in old(admins) then old(admins)[id := old(admins)[id].(level := l)] else old(admins)
    {
      if id !in admins {
        return Some(NotFound);
      }
      admins := admins[id := admins[id].(level := l)];
      return None;
    }
  }

  /**
   The out-of-band bootstrap: afterwards the phone's account is an active super admin, no other
   account has changed, and running it again changes nothing.
   */
  method SeedSuperAdmin(repo: Repository, phone: string, newId: Id) returns (id: Id)
    requires repo.Valid() && newId !in repo.admins
    modifies repo
    ensures repo.Valid()
    ensures IsActiveSuper(repo.admins, id) && repo.admins[id].phone == phone
    ensures forall o | o in old(repo.admins) && o != id :: o in repo.admins && repo.admins[o] == old(repo.admins)[o]
    ensures repo.admins.Keys == old(repo.admins).Keys + {id}
    ensures forall o | IsActiveSuper(old(repo.admins), o) && old(repo.admins)[o].phone == phone :: repo.admins == old(repo.admins)
  {
    var existing := repo.GetByPhone(phone);
    if existing.None? {
      var failed := repo.Create(newId, phone, SuperAdmin);
      assert failed.None?;
      return newId;
    }
    id := existing.value;
    assert forall o | o in repo.admins && repo.admins[o].phone == phone :: o == id;
    assert repo.admins.Keys == repo.admins.Keys + {id};
    if repo.admins[id].level != SuperAdmin {
      var failed := repo.SetLevel(id, SuperAdmin);
    }
    if repo.admins[id].status != Active {
      var failed := repo.SetStatus(id, Active);
    }
  }
}
