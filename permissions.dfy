/** The permission checks of the `usePermissions` hook (hooks/usePermissions.ts).
    A profile's `permissions` is a free-form object: module, then action,
    then a value that grants only when it is exactly `true`. */
module Permissions {
  import opened Js

  /** The loaded profile's two relevant columns. */
  datatype PermissionProfile = PermissionProfile(isAdmin: Json, permissions: Json)

  const Actions: set<string> := {"view", "edit", "create", "delete"}

  /** `{ view: b, edit: b, create: b, delete: b }`. */
  function AllActions(b: bool): (j: Json)
    ensures forall a | a in Actions :: Prop(j, a) == JBool(b)
  {
    JObj(map["view" := JBool(b), "edit" := JBool(b), "create" := JBool(b), "delete" := JBool(b)])
  }

  /** `hasPermission`: no profile grants nothing, an administrator everything,
      anyone else what their stored entry sets to `true`. */
  predicate HasPermission(profile: Option<PermissionProfile>, area: string, action: string)
  {
    profile.Some? &&
    (Truthy(profile.value.isAdmin) || Prop(Prop(profile.value.permissions, area), action) == JBool(true))
  }

  /** `isAdmin`: the flag is exactly `true`. */
  predicate IsAdmin(profile: Option<PermissionProfile>)
  {
    profile.Some? && profile.value.isAdmin == JBool(true)
  }

  /** `Object.values(v).some(p => p === true)`. */
  predicate SomeTrue(v: Json)
  {
    match v
    case JObj(fields) => exists k | k in fields :: fields[k] == JBool(true)
    case JArr(elems) => exists i | 0 <= i < |elems| :: elems[i] == JBool(true)
    case _ => false
  }

  /** `hasAnyPermission`: the module's entry grants at least one action. */
  predicate HasAnyPermission(profile: Option<PermissionProfile>, area: string)
  {
    profile.Some? &&
    (Truthy(profile.value.isAdmin)
     || (Truthy(Prop(profile.value.permissions, area)) && SomeTrue(Prop(profile.value.permissions, area))))
  }

  /** `getModulePermissions`: all false without a profile, all true for an
      administrator, otherwise the stored entry or all false. */
  function ModulePermissions(profile: Option<PermissionProfile>, area: string): (j: Json)
    ensures profile.None? ==> j == AllActions(false)
    ensures profile.Some? && Truthy(profile.value.isAdmin) ==> j == AllActions(true)
  {
    if profile.None? then AllActions(false)
    else if Truthy(profile.value.isAdmin) then AllActions(true)
    else
      var entry := Prop(profile.value.permissions, area);
      if Truthy(entry) then entry else AllActions(false)
  }

  /** An administrator in the strict sense has every permission. */
  lemma AdminHasAll(profile: Option<PermissionProfile>, area: string, action: string)
    requires IsAdmin(profile)
    ensures HasPermission(profile, area, action) && HasAnyPermission(profile, area)
  {
  }

  /** A single granted action is some granted action. */
  lemma PermissionImpliesAny(profile: Option<PermissionProfile>, area: string, action: string)
    requires HasPermission(profile, area, action)
    ensures HasAnyPermission(profile, area)
  {
    if !Truthy(profile.value.isAdmin) {
      var entry := Prop(profile.value.permissions, area);
      assert entry.JObj? && action in entry.fields && entry.fields[action] == JBool(true);
    }
  }

  /** The module's permission object answers every action as `hasPermission` does. */
  lemma ModulePermissionsAgree(profile: Option<PermissionProfile>, area: string, action: string)
    requires action in Actions
    ensures Prop(ModulePermissions(profile, area), action) == JBool(true) <==> HasPermission(profile, area, action)
  {
    if profile.Some? && !Truthy(profile.value.isAdmin) {
      var entry := Prop(profile.value.permissions, area);
      if !Truthy(entry) {
        assert Prop(entry, action) != JBool(true);
      }
    }
  }
}
