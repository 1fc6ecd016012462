/** Users: which of the block and unblock buttons a user row shows, their
    payloads, and the role, active and profile chips. */
module Users {
  import opened Values
  import opened Text
  import DataProvider
  import EnhancedChip

  /** `BlockUserButton` renders unless the user is already blocked
      (`isActive === false`). */
  predicate ShowsBlock(isActive: Option<bool>)
  {
    isActive != Some(false)
  }

  /** `UnblockUserButton` renders unless the user is already active
      (`isActive === true`). */
  predicate ShowsUnblock(isActive: Option<bool>)
  {
    isActive != Some(true)
  }

  /** The two buttons a row shows: exactly one of them for a boolean
      `isActive`, both when it is undefined. */
  function Buttons(isActive: Option<bool>): (shown: (bool, bool))
    ensures shown.0 <==> ShowsBlock(isActive)
    ensures shown.1 <==> ShowsUnblock(isActive)
    ensures isActive.Some? ==> shown.0 != shown.1
    ensures isActive.None? ==> shown.0 && shown.1
    ensures shown.0 || shown.1
  {
    BoolCases(isActive);
    (ShowsBlock(isActive), ShowsUnblock(isActive))
  }

  /** The block dialog's payload; the reason may be empty. */
  function BlockPayload(reason: string): (p: Fields)
    ensures p.Keys == {"action", "reason"}
    ensures p["action"] == JStr("block") && p["reason"] == JStr(reason)
  {
    map["action" := JStr("block"), "reason" := JStr(reason)]
  }

  /** The unblock button's payload: the action alone. */
  function UnblockPayload(): (p: Fields)
    ensures p.Keys == {"action"} && p["action"] == JStr("unblock")
  {
    map["action" := JStr("unblock")]
  }

  /** Blocking sends the reason, and only the reason, to the block
      endpoint; unblocking sends no body to the unblock endpoint. */
  lemma BlockUnblockRequests(id: string, reason: string)
    ensures DataProvider.Update("users", id, BlockPayload(reason))
      == DataProvider.Custom(DataProvider.Request(DataProvider.PATCH, "/admin/users/" + id + "/block", map[],
           Some(map["reason" := JStr(reason)])))
    ensures DataProvider.Update("users", id, UnblockPayload())
      == DataProvider.Custom(DataProvider.Request(DataProvider.PATCH, "/admin/users/" + id + "/unblock", map[], None))
  {
    assert DataProvider.IsAction(BlockPayload(reason), "block");
    assert Pick(BlockPayload(reason), {"reason"}) == map["reason" := JStr(reason)];
    assert !DataProvider.IsAction(UnblockPayload(), "block");
  }

  /** The chip status of a role: administrators look active, job posters
      published, every other role pending. */
  function RoleChipStatus(role: string): (s: string)
    ensures s == "active" <==> role == "admin"
    ensures s == "published" <==> role == "job_poster"
    ensures s == "pending" <==> role !in {"admin", "job_poster"}
  {
    if role == "admin" then "active" else if role == "job_poster" then "published" else "pending"
  }

  /** Administrators and job posters get the same green check chip; any
      other role gets the orange hourglass. */
  lemma RoleChipLooks(role: string)
    ensures var c := EnhancedChip.ConfigOf(RoleChipStatus(role));
      && (role in {"admin", "job_poster"} ==> c == EnhancedChip.Config("#4caf50", Some(EnhancedChip.CheckCircle)))
      && (role !in {"admin", "job_poster"} ==> c == EnhancedChip.Config("#ff9800", Some(EnhancedChip.HourglassEmpty)))
  {
  }

  /** A role's label: only the first underscore becomes a space. */
  function RoleLabel(role: string): (r: string)
    ensures |r| == |role|
    ensures '_' !in role ==> r == role
    ensures '_' in role ==> CountChar(r, '_') == CountChar(role, '_') - 1
    ensures '_' in role ==> r[IndexOf(role, '_')] == ' '
    ensures forall i :: 0 <= i < |role| && ('_' !in role || i != IndexOf(role, '_')) ==> r[i] == role[i]
  {
    ReplaceFirstRemovesOne(role, '_', ' ');
    ReplaceFirst(role, '_', ' ')
  }

  /** The colour of a role on the user's page. */
  function RoleColor(role: string): (c: ChipColor)
    ensures c == Error <==> role == "admin"
    ensures c == Primary <==> role == "job_poster"
    ensures c == Default <==> role !in {"admin", "job_poster"}
  {
    if role == "admin" then Error else if role == "job_poster" then Primary else Default
  }

  /** The active column: "Active" on an active chip for a truthy
      `isActive`, "Blocked" on a rejected chip otherwise. */
  function ActiveChip(isActive: Option<bool>): (chip: (string, string))
    ensures chip.1 == "Active" <==> isActive == Some(true)
    ensures chip.0 == "active" <==> isActive == Some(true)
    ensures isActive != Some(true) ==> chip == ("rejected", "Blocked")
  {
    if isActive == Some(true) then ("active", "Active") else ("rejected", "Blocked")
  }

  /** The profile column: "Complete" on a completed chip or "Incomplete"
      on a pending one. */
  function ProfileChip(profileComplete: bool): (chip: (string, string))
    ensures chip.1 == "Complete" <==> profileComplete
    ensures chip.0 == "completed" <==> profileComplete
    ensures !profileComplete ==> chip == ("pending", "Incomplete")
  {
    if profileComplete then ("completed", "Complete") else ("pending", "Incomplete")
  }
}
