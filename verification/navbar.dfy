/**
 * The navigation bar's role badge and address abbreviation, and the
 * dashboard the application shows for a set of role flags.
 */
module NavbarView {
  import opened ChainService
  import opened EvidenceLedger

  /** getRoleName: the first role set, in the order admin, law enforcement, forensic lab, court. */
  function RoleName(roles: UserRoles): (name: string)
    ensures name in {"Administrator", "Law Enforcement", "Forensic Lab", "Court", "No Role"}
    ensures name == "No Role" <==> !(roles.isAdmin || roles.isLawEnforcement || roles.isForensicLab || roles.isCourt)
  {
    if roles.isAdmin then "Administrator"
    else if roles.isLawEnforcement then "Law Enforcement"
    else if roles.isForensicLab then "Forensic Lab"
    else if roles.isCourt then "Court"
    else "No Role"
  }

  /** Each badge is shown exactly when its flag is the highest-ranking flag set. */
  lemma RoleNamePrecedence(roles: UserRoles)
    ensures RoleName(roles) == "Administrator" <==> roles.isAdmin
    ensures RoleName(roles) == "Law Enforcement" <==> !roles.isAdmin && roles.isLawEnforcement
    ensures RoleName(roles) == "Forensic Lab" <==> !roles.isAdmin && !roles.isLawEnforcement && roles.isForensicLab
    ensures RoleName(roles) == "Court" <==>
              !roles.isAdmin && !roles.isLawEnforcement && !roles.isForensicLab && roles.isCourt
    ensures RoleName(roles) == "No Role" <==> roles == UserRoles(false, false, false, false)
  {
    var n := RoleName(roles);
    assert n == "Administrator" || n == "Law Enforcement" || n == "Forensic Lab" || n == "Court" || n == "No Role";
    assert "Administrator"[0] == 'A' && "Law Enforcement"[0] == 'L' && "Forensic Lab"[0] == 'F';
    assert "Court"[0] == 'C' && "No Role"[0] == 'N';
  }

  /** The dashboards the application routes to. */
  datatype Dashboard = AdminDashboard | LawEnforcementDashboard | ForensicLabDashboard | CourtDashboard | NoRoleMessage

  /** The dashboard route's choice among the four dashboards and the no-role message. */
  function DashboardFor(roles: UserRoles): (d: Dashboard)
    ensures d == NoRoleMessage <==> !(roles.isAdmin || roles.isLawEnforcement || roles.isForensicLab || roles.isCourt)
  {
    if roles.isAdmin then AdminDashboard
    else if roles.isLawEnforcement then LawEnforcementDashboard
    else if roles.isForensicLab then ForensicLabDashboard
    else if roles.isCourt then CourtDashboard
    else NoRoleMessage
  }

  /** The badge that belongs to each dashboard. */
  function BadgeOf(d: Dashboard): string
  {
    match d
    case AdminDashboard => "Administrator"
    case LawEnforcementDashboard => "Law Enforcement"
    case ForensicLabDashboard => "Forensic Lab"
    case CourtDashboard => "Court"
    case NoRoleMessage => "No Role"
  }

  /** The badge and the dashboard follow the same precedence: the badge always names the dashboard shown. */
  lemma BadgeMatchesDashboard(roles: UserRoles)
    ensures BadgeOf(DashboardFor(roles)) == RoleName(roles)
    ensures DashboardFor(roles) == NoRoleMessage <==> RoleName(roles) == "No Role"
  {
    RoleNamePrecedence(roles);
  }

  // ------------------------------------------------------------ address abbreviation

  /** A position clamped into 0..n, as string positions are. */
  function Clamp(i: int, n: nat): (c: nat)
    ensures c <= n
    ensures 0 <= i <= n ==> c == i
  {
    if i < 0 then 0 else if i > n then n else i
  }

  /** `s.substring(start, end)`: both positions clamped to the string, then taken in ascending order. */
  function Substring(s: string, start: int, end: int): string
  {
    var a, b := Clamp(start, |s|), Clamp(end, |s|);
    if a <= b then s[a..b] else s[b..a]
  }

  /** formatAddress: "" for a missing or empty address, else the first 6 characters, "...", the last 4. */
  function FormatAddress(address: Option<string>): (shown: string)
    ensures shown == "" <==> address.None? || address.value == ""
  {
    if address.None? || address.value == "" then ""
    else
      var a := address.value;
      Substring(a, 0, 6) + "..." + Substring(a, |a| - 4, |a|)
  }

  lemma FormatAddressAbsent()
    ensures FormatAddress(None) == "" && FormatAddress(Some("")) == ""
  {
  }

  /** An address of at least 6 characters becomes 13: its first 6, "...", its last 4. */
  lemma FormatAddressShape(a: string)
    requires |a| >= 6
    ensures |FormatAddress(Some(a))| == 13
    ensures FormatAddress(Some(a))[..6] == a[..6]
    ensures FormatAddress(Some(a))[6..9] == "..."
    ensures FormatAddress(Some(a))[9..] == a[|a| - 4..]
  {
    var r := FormatAddress(Some(a));
    assert r == a[..6] + "..." + a[|a| - 4..];
  }

  /** A shorter address is not cut: it appears whole before the dots, and whole or by its last 4 after them. */
  lemma FormatAddressShort(a: string)
    requires 0 < |a| < 6
    ensures FormatAddress(Some(a)) == a + "..." + (if |a| < 4 then a else a[|a| - 4..])
  {
    assert a[0..|a|] == a;
  }

  /**
   * For addresses of at least 6 characters the abbreviation tells two
   * addresses apart exactly when their first 6 or last 4 characters differ.
   */
  lemma FormatAddressDistinguishes(a: string, b: string)
    requires |a| >= 6 && |b| >= 6
    ensures FormatAddress(Some(a)) == FormatAddress(Some(b)) <==>
              a[..6] == b[..6] && a[|a| - 4..] == b[|b| - 4..]
  {
    FormatAddressShape(a);
    FormatAddressShape(b);
    var ra, rb := FormatAddress(Some(a)), FormatAddress(Some(b));
    if a[..6] == b[..6] && a[|a| - 4..] == b[|b| - 4..] {
      assert ra == ra[..6] + ra[6..9] + ra[9..];
      assert rb == rb[..6] + rb[6..9] + rb[9..];
    }
  }
}
