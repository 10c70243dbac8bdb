/** The proxy pattern's confidential document: the proxy shows the content
    only to users whose role is among the roles it demands. */
module DocumentProxy {

  datatype Role = Admin | UserRole

  /** The role's string form, as `getRole` returns it. */
  function RoleName(r: Role): string {
    match r
    case Admin => "admin"
    case UserRole => "user"
  }

  datatype User = User(name: string, role: Role)

  datatype Proxy = Proxy(content: string, mustHaveRoles: seq<string>)

  /** What a display request produces: the document's content, or a denial
      naming the user. */
  datatype Display = Shown(content: string) | Denied(name: string)

  /** The constructor's default: no roles, so every user is denied. */
  function NewProxy(content: string): Proxy {
    Proxy(content, [])
  }

  /** `ConfidentialDocument.displayContent`, the real subject. */
  function DocumentDisplay(content: string): (d: Display)
    ensures d.Shown? && d.content == content
  {
    Shown(content)
  }

  /** `DocumentProxy.displayContent`: forwards iff the role string is
      included in `mustHaveRoles`. */
  function DisplayContent(p: Proxy, u: User): (d: Display)
    ensures d.Shown? <==> RoleName(u.role) in p.mustHaveRoles
    ensures d.Shown? ==> d == DocumentDisplay(p.content)
    ensures d.Denied? ==> d.name == u.name
  {
    if RoleName(u.role) in p.mustHaveRoles then DocumentDisplay(p.content) else Denied(u.name)
  }

  /** With the default role list nobody can read the document. */
  lemma DefaultDeniesEveryone(content: string, u: User)
    ensures DisplayContent(NewProxy(content), u) == Denied(u.name)
  {
  }

  /** Granting more roles never revokes access. */
  lemma MoreRolesNeverRevoke(p: Proxy, extra: seq<string>, u: User)
    requires DisplayContent(p, u).Shown?
    ensures DisplayContent(p.(mustHaveRoles := p.mustHaveRoles + extra), u).Shown?
  {
  }

  /** The demo: with ['admin'], Juan (user) is denied and Ana (admin) reads. */
  lemma DemoScenario()
    ensures var p := Proxy("Este es el contenido confidencial del documento.", ["admin"]);
      && DisplayContent(p, User("Juan", UserRole)) == Denied("Juan")
      && DisplayContent(p, User("Ana", Admin)) == Shown(p.content)
  {
    assert "user" != "admin" by { assert "user"[0] != "admin"[0]; }
  }
}
