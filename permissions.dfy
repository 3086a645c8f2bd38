/** The role-based permission table: which roles may perform which action on
    which module of the application. */
module Permissions {
  import opened Common

  datatype AppModule = Ventas | Compras | Inventario | Clientes | Pyg | Integraciones | Usuarios | Configuracion

  datatype Action = View | Create | Edit | Delete | Test

  const Admin: string := "admin"
  const Asistente: string := "asistente"
  const Readonly: string := "readonly"

  /** `PERMISSIONS[module][action]`: the roles listed for the action, or
      nothing when the module does not list that action. */
  function Listed(m: AppModule, a: Action): (roles: Option<seq<string>>)
    ensures roles.Some? ==> Admin in roles.value
    ensures a == Delete && roles.Some? ==> roles.value == [Admin]
  {
    match m
    case Ventas | Compras | Inventario | Clientes =>
      (match a
       case View => Some([Admin, Asistente, Readonly])
       case Create => Some([Admin, Asistente])
       case Edit => Some([Admin, Asistente])
       case Delete => Some([Admin])
       case Test => None)
    case Pyg =>
      (match a
       case View => Some([Admin, Readonly])
       case _ => None)
    case Integraciones =>
      (match a
       case View => Some([Admin])
       case Edit => Some([Admin])
       case Test => Some([Admin])
       case _ => None)
    case Usuarios =>
      (match a
       case Test => None
       case _ => Some([Admin]))
    case Configuracion =>
      (match a
       case View => Some([Admin, Asistente])
       case Edit => Some([Admin])
       case _ => None)
  }

  /** `hasPermission`: a missing or empty role is refused; otherwise the role
      must be one of those listed for the action on the module. */
  function HasPermission(role: Option<string>, m: AppModule, a: Action): (allowed: bool)
    ensures !Given(role) ==> !allowed
    ensures Listed(m, a).None? ==> !allowed
    ensures allowed <==> Given(role) && Listed(m, a).Some? && role.value in Listed(m, a).value
  {
    if !Given(role) then false
    else match Listed(m, a)
      case None => false
      case Some(roles) => role.value in roles
  }

  /** `canAccess`: seeing a module is the permission to view it. */
  function CanAccess(role: Option<string>, m: AppModule): (allowed: bool)
    ensures allowed == HasPermission(role, m, View)
  {
    HasPermission(role, m, View)
  }

  /** The administrator may perform every action a module lists. */
  lemma AdminMayDoAllListed(m: AppModule, a: Action)
    ensures HasPermission(Some(Admin), m, a) <==> Listed(m, a).Some?
  {
  }

  /** Only the three known roles are ever granted anything. */
  lemma UnknownRolesRefused(role: string, m: AppModule, a: Action)
    requires role != Admin && role != Asistente && role != Readonly
    ensures !HasPermission(Some(role), m, a)
  {
  }

  /** The read-only role may only view, and only sales, purchases, inventory,
      clients and the profit-and-loss statement. */
  lemma ReadonlyOnlyViews(m: AppModule, a: Action)
    ensures HasPermission(Some(Readonly), m, a) <==> a == View && m in {Ventas, Compras, Inventario, Clientes, Pyg}
  {
  }

  /** Deleting is for the administrator alone, wherever it is listed. */
  lemma DeleteIsAdminOnly(role: Option<string>, m: AppModule)
    ensures HasPermission(role, m, Delete) ==> role == Some(Admin)
  {
  }

  /** The assistant may do whatever the read-only role may, except view the
      profit-and-loss statement. */
  lemma AsistenteCoversReadonly(m: AppModule, a: Action)
    requires m != Pyg
    ensures HasPermission(Some(Readonly), m, a) ==> HasPermission(Some(Asistente), m, a)
  {
  }

  /** Every permission held by any role is held by the administrator. */
  lemma AdminCoversEveryRole(role: Option<string>, m: AppModule, a: Action)
    ensures HasPermission(role, m, a) ==> HasPermission(Some(Admin), m, a)
  {
  }
}
