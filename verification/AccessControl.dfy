/** `pkg/acl`: the tables of owners and superusers, updated in place. */
module AccessControlObject {
  import opened JobModel
  import opened AccessModel

  class AccessControl {
    var superUsers: set<string>
    var superReadUsers: set<string>
    var owners: map<string, string>

    ghost function View(): Acl
      reads this
    {
      Acl(owners, superUsers, superReadUsers)
    }

    constructor ()
      ensures View() == EMPTY_ACL
    {
      superUsers, superReadUsers, owners := {}, {}, map[];
    }

    method AddSuperUsers(ids: seq<string>, access: Access) returns (err: bool)
      modifies this
      ensures err <==> access != FullAccess && access != ReadAccess
      ensures owners == old(owners)
      ensures superUsers == if access == FullAccess then old(superUsers) + (set id | id in ids) else old(superUsers)
      ensures superReadUsers ==
              if access == ReadAccess then old(superReadUsers) + (set id | id in ids) else old(superReadUsers)
      ensures err <==> WithSuperUsers(old(View()), (set id | id in ids), access).None?
      ensures err ==> View() == old(View())
      ensures !err ==> Some(View()) == WithSuperUsers(old(View()), (set id | id in ids), access)
    {
      err := false;
      match access
      case FullAccess =>
        for i := 0 to |ids|
          invariant superUsers == old(superUsers) + (set id | id in ids[..i])
          invariant owners == old(owners) && superReadUsers == old(superReadUsers)
        {
          superUsers := superUsers + {ids[i]};
        }
        assert ids[..|ids|] == ids;
      case ReadAccess =>
        for i := 0 to |ids|
          invariant superReadUsers == old(superReadUsers) + (set id | id in ids[..i])
          invariant owners == old(owners) && superUsers == old(superUsers)
        {
          superReadUsers := superReadUsers + {ids[i]};
        }
        assert ids[..|ids|] == ids;
      case Unknown => err := true;
    }

    /** The owner is trimmed, and a blank owner is refused. */
    method SetOwner(target: string, user: string) returns (err: bool)
      modifies this`owners
      ensures err <==> Trim(user) == "" || Trim(target) == ""
      ensures !err ==> owners == old(owners)[Trim(target) := Trim(user)]
      ensures err <==> WithOwner(old(View()), target, user).None?
      ensures err ==> owners == old(owners)
      ensures !err ==> Some(View()) == WithOwner(old(View()), target, user)
    {
      var u := Trim(user);
      if u == "" {
        return true;
      }
      var o := Trim(target);
      if o == "" {
        return true;
      }
      owners := owners[o := u];
      err := false;
    }

    method Remove(target: string) returns (err: bool)
      modifies this`owners
      ensures err <==> target !in old(owners)
      ensures owners == old(owners) - {target}
    {
      if target !in owners {
        assert owners - {target} == owners;
        return true;
      }
      owners := owners - {target};
      err := false;
    }

    method Check(subject: string, target: string, access: Access) returns (allowed: bool)
      ensures allowed <==>
              && target in owners
              && (|| owners[target] == subject
                  || subject in superUsers
                  || (access == ReadAccess && subject in superReadUsers))
      ensures allowed <==> Allowed(View(), subject, target, access)
    {
      if target !in owners {
        return false;
      }
      if owners[target] == subject {
        return true;
      }
      if subject in superUsers {
        return true;
      }
      if access == ReadAccess {
        if subject in superReadUsers {
          return true;
        }
      }
      allowed := false;
    }
  }
}
