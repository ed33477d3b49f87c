/**
 * The site header (`Header.tsx`): the name shown for a signed-in user, which
 * session menus are offered, and the single open menu that the menu buttons
 * toggle and a click elsewhere closes.
 */
module Header {
  import opened Wrappers

  /** The fields of a user that the header reads; each may be `null`. */
  datatype User = User(firstName: Option<string>, username: Option<string>, phone: Option<string>)

  /** JavaScript truthiness of a nullable string: present and not empty. */
  predicate Truthy(s: Option<string>) {
    s.Some? && s.value != []
  }

  /**
   * `getUserDisplayName`: "Usuário" without a user; otherwise the first set
   * of the first name, the user name and the phone, in that order; and
   * "Explorador" when none is.
   */
  function GetUserDisplayName(user: Option<User>): (name: string)
    ensures name != []
    ensures user.None? ==> name == "Usuário"
    ensures user.Some? && Truthy(user.value.firstName) ==> name == user.value.firstName.value
    ensures user.Some? && !Truthy(user.value.firstName) && Truthy(user.value.username) ==>
      name == user.value.username.value
    ensures user.Some? && !Truthy(user.value.firstName) && !Truthy(user.value.username) && Truthy(user.value.phone) ==>
      name == user.value.phone.value
    ensures user.Some? && !Truthy(user.value.firstName) && !Truthy(user.value.username) && !Truthy(user.value.phone) ==>
      name == "Explorador"
  {
    match user
    case None => "Usuário"
    case Some(u) =>
      if Truthy(u.firstName) then u.firstName.value
      else if Truthy(u.username) then u.username.value
      else if Truthy(u.phone) then u.phone.value
      else "Explorador"
  }

  /**
   * The name shown is always one of the user's own fields or one of the two
   * fixed fallbacks.
   */
  lemma DisplayNameComesFromUser(user: User)
    ensures var name := GetUserDisplayName(Some(user));
      name == "Explorador"
      || Some(name) == user.firstName || Some(name) == user.username || Some(name) == user.phone
  {
  }

  /**
   * `hasParticipant` and `hasAdmin`: the session's menu is offered once
   * loading has finished and both its user and its token are present; while
   * loading no session is offered, whatever is stored.
   */
  function HasSession(isLoading: bool, user: Option<User>, token: Option<string>): (shown: bool)
    ensures isLoading ==> !shown
    ensures !isLoading ==> (shown <==> user.Some? && Truthy(token))
  {
    !isLoading && user.Some? && Truthy(token)
  }

  // ----------------------------------------------------------- the menus

  /** The two session menus. */
  datatype Menu = ParticipantMenu | AdminMenu

  /** A menu button's `onClick`: close the menu if it is the open one, otherwise open it. */
  function Toggled(activeMenu: Option<Menu>, clicked: Menu): (next: Option<Menu>)
    ensures next == Some(clicked) <==> activeMenu != Some(clicked)
    ensures next.None? <==> activeMenu == Some(clicked)
  {
    if activeMenu == Some(clicked) then None else Some(clicked)
  }

  /**
   * Clicking the same button twice restores the menus as they were when
   * no menu or that same menu was open; when the other menu was open, the
   * second click closes everything.
   */
  lemma {:induction false} ToggleTwice(activeMenu: Option<Menu>, clicked: Menu)
    ensures activeMenu == None || activeMenu == Some(clicked) ==>
      Toggled(Toggled(activeMenu, clicked), clicked) == activeMenu
    ensures activeMenu.Some? && activeMenu != Some(clicked) ==>
      Toggled(Toggled(activeMenu, clicked), clicked) == None
  {
    if activeMenu == Some(clicked) {
      assert Toggled(activeMenu, clicked) == None;
    } else {
      assert Toggled(activeMenu, clicked) == Some(clicked);
    }
  }

  /** The header's menu state: at most one menu is open. */
  class HeaderMenus {
    var activeMenu: Option<Menu>

    /** Both menus start closed. */
    constructor()
      ensures activeMenu == None
    {
      activeMenu := None;
    }

    /** A click on a menu's button (inside the menu area, so the outside handler does nothing). */
    method ClickMenuButton(clicked: Menu)
      modifies this
      ensures activeMenu == Toggled(old(activeMenu), clicked)
    {
      if activeMenu == Some(clicked) {
        activeMenu := None;
      } else {
        activeMenu := Some(clicked);
      }
    }

    /** The document's `mousedown` listener: a press outside the menu area closes any menu. */
    method MouseDown(outsideMenuArea: bool)
      modifies this
      ensures outsideMenuArea ==> activeMenu == None
      ensures !outsideMenuArea ==> activeMenu == old(activeMenu)
    {
      if outsideMenuArea {
        activeMenu := None;
      }
    }
  }
}
