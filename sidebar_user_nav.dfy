/**
 * The user menu in the sidebar (components/sidebar-user-nav.tsx): the avatar
 * URL, the initials fallback chain and the theme toggle.
 */
module SidebarUserNav {
  import opened Wrappers
  import opened Text
  import ProfileEditor

  /** The signed-in user's optional fields; `None` is null or undefined. */
  datatype User = User(name: Option<string>, email: Option<string>, image: Option<string>)

  const AvatarService: string := "https://avatar.vercel.sh/"
  /** The message of the TypeError from `''[0].toUpperCase()`. */
  const EmptyEmail: string := "TypeError: Cannot read properties of undefined (reading 'toUpperCase')"

  predicate Present(v: Option<string>) {
    v.Some? && v.value != ""
  }

  /** `user.image || 'https://avatar.vercel.sh/' + user.email`; a missing email is rendered as 'undefined'. */
  function AvatarUrl(user: User): (r: string)
    ensures Present(user.image) ==> r == user.image.value
    ensures !Present(user.image) && user.email.Some? ==> r == AvatarService + user.email.value
  {
    if Present(user.image) then user.image.value
    else AvatarService + (if user.email.Some? then user.email.value else "undefined")
  }

  /**
   * `initials`: the name's word initials when there is a name, else the
   * email's first character uppercased, else 'U'; an empty email throws.
   */
  function Initials(user: User): (r: Result<string>)
    ensures Present(user.name) ==> r == Success(ProfileEditor.NameInitials(user.name.value))
    ensures !Present(user.name) && user.email == None ==> r == Success("U")
    ensures !Present(user.name) && user.email == Some("") ==> r.Failure?
    ensures !Present(user.name) && Present(user.email) ==> r == Success([UpperChar(user.email.value[0])])
    ensures r.Success? ==> r.value != "" || Present(user.name)
  {
    if Present(user.name) then Success(ProfileEditor.NameInitials(user.name.value))
    else match user.email
      case None => Success("U")
      case Some(e) =>
        if e == "" then Failure(EmptyEmail)
        else
          assert ToUpper([e[0]]) == [UpperChar(e[0])];
          Success(ToUpper([e[0]]))
  }

  /** The theme the toggle selects: 'light' from 'dark', 'dark' from anything else. */
  function NextTheme(theme: Option<string>): (r: string)
    ensures r == "light" <==> theme == Some("dark")
    ensures r == "light" || r == "dark"
  {
    if theme == Some("dark") then "light" else "dark"
  }

  /** The toggle's label as written: it names 'dark' only for the 'light' theme. */
  function ToggleLabel(theme: Option<string>): (r: string)
    ensures r == "Toggle dark mode" <==> theme == Some("light")
  {
    "Toggle " + (if theme == Some("light") then "dark" else "light") + " mode"
  }

  /** The mode a label names. */
  function LabelMode(text: string): string {
    if |text| >= 12 then text[7..|text| - 5] else ""
  }

  /** For the 'light' and 'dark' themes the label names the theme the click selects. */
  lemma LabelMatchesForLightAndDark(theme: Option<string>)
    requires theme == Some("light") || theme == Some("dark")
    ensures LabelMode(ToggleLabel(theme)) == NextTheme(theme)
  {
    var word := if theme == Some("light") then "dark" else "light";
    assert ToggleLabel(theme) == "Toggle " + word + " mode";
    assert LabelMode(ToggleLabel(theme)) == word;
  }

  /** With the 'system' theme the label offers light mode while a click selects dark mode. */
  lemma SystemThemeLabelMismatch()
    ensures LabelMode(ToggleLabel(Some("system"))) == "light"
    ensures NextTheme(Some("system")) == "dark"
  {
    assert ToggleLabel(Some("system")) == "Toggle " + "light" + " mode";
  }

  /** The label naming the theme the click selects. */
  function CorrectedToggleLabel(theme: Option<string>): string {
    "Toggle " + NextTheme(theme) + " mode"
  }

  /** For every theme, the corrected label names what the click does. */
  lemma CorrectedLabelMatches(theme: Option<string>)
    ensures LabelMode(CorrectedToggleLabel(theme)) == NextTheme(theme)
    ensures theme == Some("light") || theme == Some("dark") ==> CorrectedToggleLabel(theme) == ToggleLabel(theme)
  {
    var word := NextTheme(theme);
    assert CorrectedToggleLabel(theme)[7..|CorrectedToggleLabel(theme)| - 5] == word;
  }
}
