/** Permission translation: role overwrites become portable records keyed by
    role name (`fetchChannelPermissions`, util.ts:149-189), and records become
    overwrites again by looking the name up in the destination guild
    (util.ts:349-359, repeated at util.ts:599-609). */
module Permissions {
  import opened Wrappers
  import Decimal
  import opened Library

  /** A live overwrite; `allow`/`deny` are the bitfields, absent when the
      overwrite carries none. */
  datatype Overwrite = Overwrite(id: string, kind: Tag, allow: Option<nat>, deny: Option<nat>)

  datatype Role = Role(id: string, name: string)

  /** What capture reads from a channel: its overwrite cache and its guild's
      role cache (`None` when the channel or guild lacks it). */
  datatype PermissionSource = PermissionSource(overwrites: Option<seq<Overwrite>>, roles: Option<seq<Role>>)

  /** ChannelPermissionsData: masks as decimal strings. */
  datatype PermissionRecord = PermissionRecord(roleName: string, allow: string, deny: string)

  /** OverwriteData handed to `permissionOverwrites.set`. */
  datatype OverwriteData = OverwriteData(id: string, allow: int, deny: int, kind: Tag)

  /** `roles.cache.get(id)`: the role with that id. */
  function RoleById(roles: seq<Role>, id: string): (r: Option<Role>)
    ensures r.Some? ==> r.value in roles && r.value.id == id
    ensures r.None? ==> forall k :: 0 <= k < |roles| ==> roles[k].id != id
  {
    if roles == [] then None
    else if roles[0].id == id then Some(roles[0])
    else RoleById(roles[1..], id)
  }

  /** `roles.cache.find(r => r.name === name)`: the first role with that name. */
  function RoleByName(roles: seq<Role>, name: string): (r: Option<Role>)
    ensures r.Some? ==> r.value in roles && r.value.name == name
    ensures r.None? ==> forall k :: 0 <= k < |roles| ==> roles[k].name != name
  {
    if roles == [] then None
    else if roles[0].name == name then Some(roles[0])
    else RoleByName(roles[1..], name)
  }

  /** The role found is the first one with that name. */
  lemma {:induction false} RoleByNameIsFirst(roles: seq<Role>, name: string)
    ensures RoleByName(roles, name).Some? ==>
      exists k :: 0 <= k < |roles| && roles[k] == RoleByName(roles, name).value && (forall j :: 0 <= j < k ==> roles[j].name != name)
  {
    if roles != [] && roles[0].name != name && RoleByName(roles, name).Some? {
      RoleByNameIsFirst(roles[1..], name);
      var k :| 0 <= k < |roles[1..]| && roles[1..][k] == RoleByName(roles, name).value &&
        (forall j :: 0 <= j < k ==> roles[1..][j].name != name);
      assert roles[k + 1] == RoleByName(roles, name).value;
      assert forall j :: 0 <= j < k + 1 ==> roles[j].name != name by {
        forall j | 0 <= j < k + 1 ensures roles[j].name != name {
          if j > 0 { assert roles[j] == roles[1..][j - 1]; }
        }
      }
    }
  }

  function RoleIds(roles: seq<Role>): set<string> {
    set r | r in roles :: r.id
  }

  /** The overwrite filter: `p.type === OverwriteType.Role || p.type === 'role'`. */
  predicate IsRoleOverwrite(o: Overwrite, v14Constants: bool) {
    o.kind == RoleOverwriteType(v14Constants) || o.kind == Str("role")
  }

  /** `bitfield ? bitfield.toString() : '0'`. */
  function MaskText(b: Option<nat>): (s: string)
    ensures Decimal.AllDigits(s) && |s| >= 1
  {
    match b
    case Some(n) => Decimal.ToDecimal(n)
    case None => "0"
  }

  /** The number a missing bitfield stands for. */
  function MaskValue(b: Option<nat>): nat {
    b.GetOr(0)
  }

  /** The record one overwrite yields, if any: only role overwrites whose id
      resolves in the role cache. */
  function RecordOf(o: Overwrite, roles: seq<Role>, v14Constants: bool): Option<PermissionRecord> {
    if IsRoleOverwrite(o, v14Constants) && RoleById(roles, o.id).Some? then
      Some(PermissionRecord(RoleById(roles, o.id).value.name, MaskText(o.allow), MaskText(o.deny)))
    else None
  }

  /** The records a list of overwrites yields, in overwrite order. */
  function CaptureList(os: seq<Overwrite>, roles: seq<Role>, v14Constants: bool): seq<PermissionRecord>
  {
    if os == [] then []
    else
      var rest := CaptureList(os[1..], roles, v14Constants);
      match RecordOf(os[0], roles, v14Constants)
      case Some(p) => [p] + rest
      case None => rest
  }

  /** What `fetchChannelPermissions` returns for a channel: nothing without an
      overwrite cache, nothing when the guild's role cache is missing (every
      entry is skipped), otherwise one record per resolvable role overwrite. */
  function CapturedPermissions(src: PermissionSource, v14Constants: bool): seq<PermissionRecord> {
    if src.overwrites.None? || src.roles.None? then []
    else CaptureList(src.overwrites.value, src.roles.value, v14Constants)
  }

  /** `fetchChannelPermissions`: walk the overwrite cache and push one record
      per role overwrite whose role is cached. */
  method FetchChannelPermissions(src: PermissionSource, v14Constants: bool) returns (permissions: seq<PermissionRecord>)
    ensures permissions == CapturedPermissions(src, v14Constants)
    ensures src.overwrites.None? ==> permissions == []
    ensures |permissions| <= |src.overwrites.GetOr([])|
  {
    permissions := [];
    if src.overwrites.None? {
      return;
    }
    var os := src.overwrites.value;
    var i := 0;
    while i < |os|
      invariant 0 <= i <= |os|
      invariant |permissions| <= i
      invariant src.roles.Some? ==> permissions + CaptureList(os[i..], src.roles.value, v14Constants) == CaptureList(os, src.roles.value, v14Constants)
      invariant src.roles.None? ==> permissions == []
    {
      var perm := os[i];
      assert os[i..][0] == perm && os[i..][1..] == os[i + 1..];
      if IsRoleOverwrite(perm, v14Constants) {
        if src.roles.Some? {
          var role := RoleById(src.roles.value, perm.id);
          if role.Some? {
            permissions := permissions + [PermissionRecord(role.value.name, MaskText(perm.allow), MaskText(perm.deny))];
          }
        }
      }
      i := i + 1;
    }
    assert os[i..] == [];
  }

  /** Capture distributes over concatenation: records keep overwrite order. */
  lemma {:induction false} CaptureAppend(a: seq<Overwrite>, b: seq<Overwrite>, roles: seq<Role>, v14Constants: bool)
    ensures CaptureList(a + b, roles, v14Constants) == CaptureList(a, roles, v14Constants) + CaptureList(b, roles, v14Constants)
  {
    if a != [] {
      assert (a + b)[1..] == a[1..] + b;
      CaptureAppend(a[1..], b, roles, v14Constants);
    } else {
      assert a + b == b;
    }
  }

  /** One overwrite: a record exactly when it is a role overwrite whose role is
      cached, named after that role, masks in decimal ("0" when absent). */
  lemma CaptureSingle(o: Overwrite, roles: seq<Role>, v14Constants: bool)
    ensures |CaptureList([o], roles, v14Constants)| == 1 <==> IsRoleOverwrite(o, v14Constants) && RoleById(roles, o.id).Some?
    ensures |CaptureList([o], roles, v14Constants)| <= 1
    ensures CaptureList([o], roles, v14Constants) != [] ==>
      CaptureList([o], roles, v14Constants)[0] ==
        PermissionRecord(RoleById(roles, o.id).value.name, MaskText(o.allow), MaskText(o.deny))
  {
    assert [o][1..] == [];
  }

  /** Every record names a role of the guild and carries decimal masks; the
      list is never longer than the overwrite list. */
  lemma {:induction false} CaptureSound(os: seq<Overwrite>, roles: seq<Role>, v14Constants: bool)
    ensures |CaptureList(os, roles, v14Constants)| <= |os|
    ensures forall p :: p in CaptureList(os, roles, v14Constants) ==>
      (exists r :: r in roles && r.name == p.roleName) && Decimal.AllDigits(p.allow) && Decimal.AllDigits(p.deny)
  {
    if os != [] {
      CaptureSound(os[1..], roles, v14Constants);
    }
  }

  /** Member overwrites never produce a record. */
  lemma {:induction false} MembersDropped(os: seq<Overwrite>, roles: seq<Role>, v14Constants: bool)
    requires forall k :: 0 <= k < |os| ==> !IsRoleOverwrite(os[k], v14Constants)
    ensures CaptureList(os, roles, v14Constants) == []
  {
    if os != [] {
      MembersDropped(os[1..], roles, v14Constants);
    }
  }

  /** One record restored: `BigInt` throws (None) on a mask that is not a
      decimal string; a record whose name matches no role becomes `null`. */
  function RestoreOne(p: PermissionRecord, roles: seq<Role>, v14Constants: bool): Option<Option<OverwriteData>> {
    match RoleByName(roles, p.roleName)
    case None => Some(None)
    case Some(role) =>
      var allow := Decimal.ParseBigInt(p.allow);
      var deny := Decimal.ParseBigInt(p.deny);
      if allow.None? || deny.None? then None
      else Some(Some(OverwriteData(role.id, allow.value, deny.value, RoleOverwriteType(v14Constants))))
  }

  /** The `map(...).filter(perm => perm !== null)` on restore. None stands for
      the exception `BigInt` throws on a malformed mask, which abandons the
      whole list. */
  function RestorePermissions(records: seq<PermissionRecord>, roles: seq<Role>, v14Constants: bool): (r: Option<seq<OverwriteData>>)
    ensures r.Some? ==> |r.value| <= |records|
    ensures r.Some? ==> forall d :: d in r.value ==> d.kind == RoleOverwriteType(v14Constants) && d.id in RoleIds(roles)
  {
    if records == [] then Some([])
    else
      match RestoreOne(records[0], roles, v14Constants)
      case None => None
      case Some(head) =>
        match RestorePermissions(records[1..], roles, v14Constants)
        case None => None
        case Some(rest) =>
          match head
          case None => Some(rest)
          case Some(d) => Some([d] + rest)
  }

  /** Restoring a concatenation restores each part and concatenates; so order
      is kept, and a dropped record does not disturb the others. */
  lemma {:induction false} RestoreAppend(a: seq<PermissionRecord>, b: seq<PermissionRecord>, roles: seq<Role>, v14Constants: bool)
    requires RestorePermissions(a, roles, v14Constants).Some? && RestorePermissions(b, roles, v14Constants).Some?
    ensures RestorePermissions(a + b, roles, v14Constants) ==
      Some(RestorePermissions(a, roles, v14Constants).value + RestorePermissions(b, roles, v14Constants).value)
  {
    if a != [] {
      assert (a + b)[1..] == a[1..] + b;
      assert (a + b)[0] == a[0];
      var ra1 := RestorePermissions(a[1..], roles, v14Constants).value;
      var rb := RestorePermissions(b, roles, v14Constants).value;
      RestoreAppend(a[1..], b, roles, v14Constants);
      var head := RestoreOne(a[0], roles, v14Constants).value;
      if head.Some? {
        assert [head.value] + (ra1 + rb) == ([head.value] + ra1) + rb;
      }
    } else {
      assert a + b == b;
      var rb := RestorePermissions(b, roles, v14Constants).value;
      assert RestorePermissions(a, roles, v14Constants) == Some([]);
      assert [] + rb == rb;
    }
  }

  /** A record whose role name is missing from the destination guild is
      dropped without error. */
  lemma MissingRoleDropped(p: PermissionRecord, roles: seq<Role>, v14Constants: bool)
    requires forall k :: 0 <= k < |roles| ==> roles[k].name != p.roleName
    ensures RestorePermissions([p], roles, v14Constants) == Some([])
  {
    assert [p][1..] == [];
  }

  /** Reference definition of capture-then-restore: each resolvable role
      overwrite, in order, becomes an overwrite for the destination role of the
      same name, with the original masks. */
  function Translated(os: seq<Overwrite>, roles: seq<Role>, dest: seq<Role>, v14Constants: bool): seq<OverwriteData>
  {
    if os == [] then []
    else
      var rest := Translated(os[1..], roles, dest, v14Constants);
      var o := os[0];
      if IsRoleOverwrite(o, v14Constants) && RoleById(roles, o.id).Some? && RoleByName(dest, RoleById(roles, o.id).value.name).Some? then
        [OverwriteData(RoleByName(dest, RoleById(roles, o.id).value.name).value.id, MaskValue(o.allow), MaskValue(o.deny), RoleOverwriteType(v14Constants))] + rest
      else rest
  }

  /** Round trip: capturing overwrites and restoring the records never fails,
      and gives, for every role whose name the destination knows, the same
      allow and deny masks. */
  lemma {:induction false} CaptureRestoreRoundTrip(os: seq<Overwrite>, roles: seq<Role>, dest: seq<Role>, v14Constants: bool)
    ensures RestorePermissions(CaptureList(os, roles, v14Constants), dest, v14Constants) == Some(Translated(os, roles, dest, v14Constants))
  {
    if os != [] {
      var o := os[0];
      var tail := CaptureList(os[1..], roles, v14Constants);
      CaptureRestoreRoundTrip(os[1..], roles, dest, v14Constants);
      if IsRoleOverwrite(o, v14Constants) && RoleById(roles, o.id).Some? {
        var p := PermissionRecord(RoleById(roles, o.id).value.name, MaskText(o.allow), MaskText(o.deny));
        assert CaptureList(os, roles, v14Constants) == [p] + tail;
        assert ([p] + tail)[1..] == tail;
        RestoreOneOfCaptured(o, p, dest, v14Constants);
      } else {
        assert CaptureList(os, roles, v14Constants) == tail;
      }
    }
  }

  /** The masks of a captured record parse back to the overwrite's bitfields. */
  lemma RestoreOneOfCaptured(o: Overwrite, p: PermissionRecord, dest: seq<Role>, v14Constants: bool)
    requires p.allow == MaskText(o.allow) && p.deny == MaskText(o.deny)
    ensures RestoreOne(p, dest, v14Constants) ==
      Some(if RoleByName(dest, p.roleName).Some? then
             Some(OverwriteData(RoleByName(dest, p.roleName).value.id, MaskValue(o.allow), MaskValue(o.deny), RoleOverwriteType(v14Constants)))
           else None)
  {
    Decimal.ParseOfDecimal(MaskValue(o.allow));
    Decimal.ParseOfDecimal(MaskValue(o.deny));
  }

  /** When every captured role name exists in the destination guild, nothing is
      dropped: one overwrite per record, with the captured masks. */
  lemma {:induction false} RoundTripKeepsAll(os: seq<Overwrite>, roles: seq<Role>, dest: seq<Role>, v14Constants: bool)
    requires forall r :: r in roles ==> RoleByName(dest, r.name).Some?
    ensures |Translated(os, roles, dest, v14Constants)| == |CaptureList(os, roles, v14Constants)|
  {
    if os != [] {
      RoundTripKeepsAll(os[1..], roles, dest, v14Constants);
    }
  }
}
