/** The navigation link: whether it is active for the current path, and its class names. */
module NavLink {
  import opened Wrappers
  import Text

  /** Active when a path is known: equal to `href` with `exact`, otherwise starting with it. */
  function IsActive(pathname: Option<string>, href: string, exact: bool): (b: bool)
    ensures pathname.None? || pathname.value == "" ==> !b
    ensures pathname.Some? && pathname.value != "" && exact ==> (b <==> pathname.value == href)
    ensures pathname.Some? && pathname.value != "" && !exact ==>
      (b <==> |href| <= |pathname.value| && pathname.value[..|href|] == href)
  {
    if pathname.Some? && pathname.value != "" then
      (if exact then pathname.value == href else Text.StartsWith(pathname.value, href))
    else false
  }

  /** An exactly-matching link is also active without `exact`. */
  lemma ExactImpliesPrefix(pathname: Option<string>, href: string)
    ensures IsActive(pathname, href, true) ==> IsActive(pathname, href, false)
  {
  }

  /** The `className` prop: a function of the active flag, or an optional plain class string. */
  datatype ClassNameProp = ByState(f: bool -> string) | Plain(className: Option<string>)

  /** `cn(...)` without the tailwind merge: the non-empty parts joined with single spaces. */
  function JoinClasses(parts: seq<Option<string>>): string
  {
    if parts == [] then ""
    else
      var rest := JoinClasses(parts[1..]);
      if parts[0].Some? && parts[0].value != "" then
        (if rest == "" then parts[0].value else parts[0].value + " " + rest)
      else rest
  }

  function ClassName(prop: ClassNameProp, activeClassName: Option<string>, active: bool): (r: string)
    ensures prop.ByState? ==> r == prop.f(active)
    ensures prop.Plain? && !active ==> r == JoinClasses([prop.className])
    ensures prop.Plain? && active ==> r == JoinClasses([prop.className, activeClassName])
  {
    match prop
    case ByState(f) => f(active)
    case Plain(c) =>
      assert [c, None][1..] == [None] && [c][1..] == [];
      assert JoinClasses([None]) == "" by { var n: seq<Option<string>> := [None]; assert n[1..] == []; }
      JoinClasses([c, if active then activeClassName else None])
  }

  /** The active class is added only when the link is active; otherwise the plain class is kept as is. */
  lemma ActiveClassOnlyWhenActive(c: string, activeClassName: string)
    requires c != "" && activeClassName != ""
    ensures ClassName(Plain(Some(c)), Some(activeClassName), true) == c + " " + activeClassName
    ensures ClassName(Plain(Some(c)), Some(activeClassName), false) == c
    ensures ClassName(Plain(None), Some(activeClassName), true) == activeClassName
  {
    assert JoinClasses([Some(activeClassName)]) == activeClassName by {
      assert [Some(activeClassName)][1..] == [];
    }
    assert [Some(c), Some(activeClassName)][1..] == [Some(activeClassName)];
    assert [None, Some(activeClassName)][1..] == [Some(activeClassName)];
    assert JoinClasses([Some(c)]) == c by {
      assert [Some(c)][1..] == [];
    }
  }
}
