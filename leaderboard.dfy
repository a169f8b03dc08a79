/**
  The display rules of `Leaderboard` (src/components/Leaderboard.tsx): the
  rank icon for a position, the badge colour of a department, the name of
  the current user's entry and the avatar fallback letter.
*/
module Leaderboard {
  import opened Options
  import Auth

  datatype RankIcon = Trophy | Medal | Award | RankText(text: string)

  /** The fields of `currentUser` the leaderboard reads. */
  datatype CurrentUser = CurrentUser(displayName: Option<string>, email: Option<string>)

  datatype Entry = Entry(name: Option<string>, department: string, points: int)

  /** What one rendered row shows. */
  datatype Row = Row(icon: RankIcon, name: Option<string>, avatarFallback: string, badgeColor: string)

  const DefaultColor := "bg-gray-100 text-gray-800"
  const CurrentUserDepartment := "Your Department"
  const AnonymousName := "You"
  const MissingInitial := "?"

  const DepartmentColors: map<string, string> := map[
    "Engineering" := "bg-blue-100 text-blue-800",
    "Marketing" := "bg-purple-100 text-purple-800",
    "Sales" := "bg-green-100 text-green-800",
    "HR" := "bg-pink-100 text-pink-800",
    "Finance" := "bg-yellow-100 text-yellow-800",
    "Operations" := "bg-indigo-100 text-indigo-800",
    "Design" := "bg-orange-100 text-orange-800"
  ]

  // ---------------------------------------------------------------------
  // Decimal text of a position

  function DigitChar(d: nat): (c: char)
    requires d < 10
    ensures '0' <= c <= '9'
    ensures (c as int) - ('0' as int) == d
  {
    ((('0' as int) + d) as char)
  }

  predicate AllDigits(s: string) {
    forall j :: 0 <= j < |s| ==> '0' <= s[j] <= '9'
  }

  /** Decimal digits of `n`, without leading zeros. */
  function NatToString(n: nat): (s: string)
    ensures |s| >= 1 && AllDigits(s)
    ensures |s| > 1 ==> s[0] != '0'
  {
    if n < 10 then [DigitChar(n)] else NatToString(n / 10) + [DigitChar(n % 10)]
  }

  /** The decimal text a template literal gives an integer position. */
  function IntToString(i: int): (s: string)
    ensures i >= 0 ==> AllDigits(s) && ParseDecimal(s) == i
    ensures i >= 0 ==> |s| >= 1 && (|s| > 1 ==> s[0] != '0')
    ensures i < 0 ==> |s| >= 2 && s[0] == '-' && s[1..] == NatToString(-i)
  {
    if i < 0 then
      assert ("-" + NatToString(-i))[1..] == NatToString(-i);
      "-" + NatToString(-i)
    else
      ParseNatToString(i);
      NatToString(i)
  }

  /** The value of a string of decimal digits. */
  function ParseDecimal(s: string): nat
    requires AllDigits(s)
  {
    if s == [] then 0
    else ParseDecimal(s[..|s| - 1]) * 10 + ((s[|s| - 1] as int) - ('0' as int))
  }

  /** Reading back the digits of a position gives the position. */
  lemma {:induction false} ParseNatToString(n: nat)
    ensures ParseDecimal(NatToString(n)) == n
  {
    var s := NatToString(n);
    if n >= 10 {
      ParseNatToString(n / 10);
      assert s[..|s| - 1] == NatToString(n / 10);
    }
  }

  /** Different positions are written differently. */
  lemma PositionTextIsInjective(m: nat, n: nat)
    requires NatToString(m) == NatToString(n)
    ensures m == n
  {
    ParseNatToString(m);
    ParseNatToString(n);
  }

  // ---------------------------------------------------------------------
  // Lookups

  /** The icon `getRankIcon` shows for a position. */
  function GetRankIcon(position: int): (icon: RankIcon)
    ensures icon == Trophy <==> position == 1
    ensures icon == Medal <==> position == 2
    ensures icon == Award <==> position == 3
    ensures icon.RankText? <==> position !in {1, 2, 3}
    ensures icon.RankText? ==> icon.text == "#" + IntToString(position)
  {
    match position
    case 1 => Trophy
    case 2 => Medal
    case 3 => Award
    case _ => RankText("#" + IntToString(position))
  }

  /** The badge colour class `getDepartmentColor` gives a department. */
  function DepartmentColor(department: string): (color: string)
    ensures department in DepartmentColors ==> color == DepartmentColors[department]
    ensures department !in DepartmentColors ==> color == DefaultColor
  {
    if department in DepartmentColors then DepartmentColors[department] else DefaultColor
  }

  /** The seven named departments each have a colour of their own, none of
      them the default. */
  lemma NamedDepartmentColors(a: string, b: string)
    requires a in DepartmentColors && b in DepartmentColors && a != b
    ensures DepartmentColor(a) != DepartmentColor(b)
    ensures DepartmentColor(a) != DefaultColor
  {
  }

  /** The name of the current user's entry: the display name, else the
      email, else "You", each skipped when missing or empty. */
  function EntryName(currentUser: Option<CurrentUser>): (name: string)
    ensures name != ""
    ensures currentUser.Some? && currentUser.value.displayName.Some? && currentUser.value.displayName.value != "" ==>
              name == currentUser.value.displayName.value
    ensures currentUser.Some? &&
            !(currentUser.value.displayName.Some? && currentUser.value.displayName.value != "") &&
            currentUser.value.email.Some? && currentUser.value.email.value != "" ==>
              name == currentUser.value.email.value
    ensures name != AnonymousName ==>
              currentUser.Some? &&
              ((currentUser.value.displayName.Some? && name == currentUser.value.displayName.value) ||
               (currentUser.value.email.Some? && name == currentUser.value.email.value))
  {
    if currentUser.None? then AnonymousName
    else
      var u := currentUser.value;
      if u.displayName.Some? && u.displayName.value != "" then u.displayName.value
      else if u.email.Some? && u.email.value != "" then u.email.value
      else AnonymousName
  }

  /** The avatar fallback of a row: the name's first character, or '?'
      when the name is missing or empty. */
  function AvatarFallback(name: Option<string>): (initial: string)
    ensures |initial| == 1
    ensures name.Some? && name.value != "" ==> initial == [name.value[0]]
    ensures (name.None? || name.value == "") ==> initial == MissingInitial
  {
    if name.Some? && name.value != "" then [name.value[0]] else MissingInitial
  }

  // ---------------------------------------------------------------------
  // Rows

  /** `leaderboardData`: the single entry for the current user. */
  function LeaderboardData(currentUser: Option<CurrentUser>): (entries: seq<Entry>)
    ensures |entries| == 1 && entries[0].name == Some(EntryName(currentUser))
    ensures entries[0].department == CurrentUserDepartment
  {
    [Entry(Some(EntryName(currentUser)), CurrentUserDepartment, 0)]
  }

  function RowOf(e: Entry, position: int): Row {
    Row(GetRankIcon(position), e.name, AvatarFallback(e.name), DepartmentColor(e.department))
  }

  /** The rows for `entries`, the first at `position`. */
  function RowsFrom(entries: seq<Entry>, position: int): (rows: seq<Row>)
    ensures |rows| == |entries|
    ensures forall k :: 0 <= k < |entries| ==> rows[k] == RowOf(entries[k], position + k)
  {
    if entries == [] then [] else [RowOf(entries[0], position)] + RowsFrom(entries[1..], position + 1)
  }

  /** The rendered rows: the entry at index k is shown with the rank of
      position k + 1, so ranks start at 1 and go up by one. */
  function Rows(entries: seq<Entry>): (rows: seq<Row>)
    ensures |rows| == |entries|
    ensures forall k :: 0 <= k < |entries| ==> rows[k].icon == GetRankIcon(k + 1)
    ensures |entries| > 0 ==> rows[0].icon == Trophy
  {
    RowsFrom(entries, 1)
  }

  /** The current user's row: the trophy, the default badge colour, and
      an initial taken from the entry's name. */
  lemma CurrentUserRow(currentUser: Option<CurrentUser>)
    ensures var name := EntryName(currentUser);
            Rows(LeaderboardData(currentUser)) ==
            [Row(Trophy, Some(name), [name[0]], DefaultColor)]
  {
    assert CurrentUserDepartment !in DepartmentColors;
  }

  /** When the leaderboard is given the session holder's `authUser`, the
      entry is named by its display name, which is never empty. */
  lemma SignedInUserListedByDisplayName(u: Auth.User, p: Auth.Profile)
    ensures var au := Auth.DeriveAuthUser(Some(u), Some(p)).value;
            EntryName(Some(CurrentUser(Some(au.displayName), Some(au.email)))) == au.displayName
  {
  }
}
