/** The access rules of `pkg/acl` as values and functions. */
module AccessModel {
  import opened JobModel

  /** The characters `strings.TrimSpace` removes (Unicode White_Space). */
  predicate IsSpace(c: char) {
    var n := c as int;
    || 9 <= n <= 13 || n == 32 || n == 0x85 || n == 0xA0 || n == 0x1680
    || 0x2000 <= n <= 0x200A || n == 0x2028 || n == 0x2029 || n == 0x202F || n == 0x205F || n == 0x3000
  }

  function Trim(s: string): string {
    if s == [] then s
    else if IsSpace(s[0]) then Trim(s[1..])
    else if IsSpace(s[|s| - 1]) then Trim(s[..|s| - 1])
    else s
  }

  ghost predicate Blank(s: string) {
    forall c <- s :: IsSpace(c)
  }

  /** `Trim` cuts blanks, and nothing else, from both ends. */
  lemma {:induction false} TrimCuts(s: string) returns (left: string, right: string)
    ensures s == left + Trim(s) + right && Blank(left) && Blank(right)
    ensures Trim(s) != "" ==> !IsSpace(Trim(s)[0]) && !IsSpace(Trim(s)[|Trim(s)| - 1])
    ensures Trim(Trim(s)) == Trim(s)
    decreases |s|
  {
    left, right := "", "";
    if s == [] {
    } else if IsSpace(s[0]) {
      left, right := TrimCuts(s[1..]);
      left := [s[0]] + left;
    } else if IsSpace(s[|s| - 1]) {
      left, right := TrimCuts(s[..|s| - 1]);
      right := right + [s[|s| - 1]];
    }
  }

  datatype Access = Unknown | FullAccess | ReadAccess

  /** The three maps of an AccessControl. */
  datatype Acl = Acl(owners: map<string, string>, full: set<string>, read: set<string>)

  const EMPTY_ACL: Acl := Acl(map[], {}, {})

  /** None when the call is refused and nothing changes. */
  function WithSuperUsers(a: Acl, ids: set<string>, access: Access): Option<Acl> {
    match access
    case FullAccess => Some(a.(full := a.full + ids))
    case ReadAccess => Some(a.(read := a.read + ids))
    case Unknown => None
  }

  /** None when the user or the target is blank. */
  function WithOwner(a: Acl, target: string, user: string): Option<Acl> {
    if Trim(user) == "" || Trim(target) == "" then None
    else Some(a.(owners := a.owners[Trim(target) := Trim(user)]))
  }

  /** None when the target has no owner. */
  function WithoutOwner(a: Acl, target: string): Option<Acl> {
    if target in a.owners then Some(a.(owners := a.owners - {target})) else None
  }

  /** `Check`. A target without an owner is out of reach even for superusers. */
  predicate Allowed(a: Acl, subject: string, target: string, access: Access) {
    && target in a.owners
    && (|| a.owners[target] == subject
        || subject in a.full
        || (access == ReadAccess && subject in a.read))
  }
}
