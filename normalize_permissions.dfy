/** `normalizePermissions(user)`: flattens the user's role-permission links
    into one permission record per link, in the same order. */
module NormalizePermissions {
  import opened Wrappers

  datatype Permission = Permission(name: string)

  /** One link between a role and a permission with its four flags; the
      entity is `Partial`, so a flag may be undefined (None). */
  datatype PermissionRole = PermissionRole(
    permission: Permission,
    create: Option<bool>,
    read: Option<bool>,
    update: Option<bool>,
    delete: Option<bool>)

  /** `permissionRole` may be null or missing (None). */
  datatype Role = Role(permissionRole: Option<seq<PermissionRole>>)

  datatype User = User(id: string, name: string, role: Option<Role>)

  datatype TPermission = TPermission(
    name: string,
    create: Option<bool>,
    read: Option<bool>,
    update: Option<bool>,
    delete: Option<bool>)

  /** The object literal built for one link. */
  function Normalize(pr: PermissionRole): (p: TPermission)
    ensures p.name == pr.permission.name
    ensures p.create == pr.create && p.read == pr.read && p.update == pr.update && p.delete == pr.delete
  {
    TPermission(pr.permission.name, pr.create, pr.read, pr.update, pr.delete)
  }

  /** `user.role?.permissionRole?.map(...)`: undefined when the role or its
      links are absent, otherwise one entry per link, position for position. */
  function NormalizePermissions(user: User): (r: Option<seq<TPermission>>)
    ensures r.None? <==> user.role.None? || user.role.value.permissionRole.None?
    ensures r.Some? ==>
              var links := user.role.value.permissionRole.value;
              && |r.value| == |links|
              && forall i :: 0 <= i < |links| ==> r.value[i] == Normalize(links[i])
  {
    match user.role
    case None => None
    case Some(role) =>
      match role.permissionRole
      case None => None
      case Some(links) => Some(seq(|links|, i requires 0 <= i < |links| => Normalize(links[i])))
  }

  /** No two links collapse into one record unless they carry the same
      name and flags: normalising a link loses nothing but the permission's
      other fields. */
  lemma NormalizeInjective(a: PermissionRole, b: PermissionRole)
    ensures Normalize(a) == Normalize(b) <==> a == b
  {
  }

  /** Normalising a concatenation of link lists concatenates the results. */
  lemma NormalizeConcat(id: string, name: string, a: seq<PermissionRole>, b: seq<PermissionRole>)
    ensures var ra := NormalizePermissions(User(id, name, Some(Role(Some(a)))));
            var rb := NormalizePermissions(User(id, name, Some(Role(Some(b)))));
            NormalizePermissions(User(id, name, Some(Role(Some(a + b))))) == Some(ra.value + rb.value)
  {
    var r := NormalizePermissions(User(id, name, Some(Role(Some(a + b))))).value;
    var ra := NormalizePermissions(User(id, name, Some(Role(Some(a))))).value;
    var rb := NormalizePermissions(User(id, name, Some(Role(Some(b))))).value;
    assert r == ra + rb;
  }
}
