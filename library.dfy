/** The two client libraries behind one call surface (util.ts:13-144): which
    one is loaded decides the constant tables (channel types, overwrite types,
    premium tiers), and a module flag decides which creation API is used. */
module Library {
  import Decimal

  /** A channel or overwrite type as the platform reports it: discord.js v14
      uses numeric enums, discord.js-selfbot-v13 uses string literals. */
  datatype Tag = Num(code: nat) | Str(text: string)

  /** JavaScript's `String(tag)`. */
  function TagString(t: Tag): string {
    match t
    case Num(c) => Decimal.ToDecimal(c)
    case Str(s) => s
  }

  datatype ChannelKind =
    | GuildText | GuildVoice | GuildCategory | GuildAnnouncement
    | GuildStageVoice | GuildForum | GuildMedia

  /** The discord.js v14 `ChannelType` enum values. */
  function V14Code(k: ChannelKind): nat {
    match k
    case GuildText => 0
    case GuildVoice => 2
    case GuildCategory => 4
    case GuildAnnouncement => 5
    case GuildStageVoice => 13
    case GuildForum => 15
    case GuildMedia => 16
  }

  /** The selfbot library's spelling of each channel type (util.ts:43-51). */
  function SelfbotName(k: ChannelKind): string {
    match k
    case GuildText => "GUILD_TEXT"
    case GuildVoice => "GUILD_VOICE"
    case GuildCategory => "GUILD_CATEGORY"
    case GuildAnnouncement => "GUILD_NEWS"
    case GuildStageVoice => "GUILD_STAGE_VOICE"
    case GuildForum => "GUILD_FORUM"
    case GuildMedia => "GUILD_MEDIA"
  }

  /** `ChannelType.X`: the v14 enum when discord.js loaded at startup, the
      string table otherwise. */
  function ChannelTypeValue(v14Constants: bool, k: ChannelKind): Tag {
    if v14Constants then Num(V14Code(k)) else Str(SelfbotName(k))
  }

  /** `t === ChannelType.X || t === 'NAME'`: strict comparison. */
  predicate IsKind(t: Tag, v14Constants: bool, k: ChannelKind) {
    t == ChannelTypeValue(v14Constants, k) || t == Str(SelfbotName(k))
  }

  /** `String(t) === String(ChannelType.X) || String(t) === 'NAME'`. */
  predicate IsKindByName(t: Tag, v14Constants: bool, k: ChannelKind) {
    TagString(t) == TagString(ChannelTypeValue(v14Constants, k)) || TagString(t) == SelfbotName(k)
  }

  /** `OverwriteType.Role`: `0` in v14, `'role'` in the selfbot table. */
  function RoleOverwriteType(v14Constants: bool): Tag {
    if v14Constants then Num(0) else Str("role")
  }

  /** What the rest of the module reads from the library state: which
      constant tables are in force and whether the selfbot creation API is used
      (`isSelfbotMode && discordjsSelfbot`). */
  datatype Mode = Mode(v14Constants: bool, selfbotBranch: bool)

  /** A strict match is also a match by name. */
  lemma StrictImpliesByName(t: Tag, v14Constants: bool, k: ChannelKind)
    requires IsKind(t, v14Constants, k)
    ensures IsKindByName(t, v14Constants, k)
  {
  }

  /** No tag is of two kinds at once, whichever way it is compared. */
  lemma {:induction false} KindsExclusive(t: Tag, v14Constants: bool, k1: ChannelKind, k2: ChannelKind)
    requires IsKindByName(t, v14Constants, k1) && IsKindByName(t, v14Constants, k2)
    ensures k1 == k2
  {
    var s := TagString(t);
    forall k | IsKindByName(t, v14Constants, k)
      ensures s == Decimal.ToDecimal(V14Code(k)) || s == SelfbotName(k)
    {
    }
    if s == Decimal.ToDecimal(V14Code(k1)) {
      if s == Decimal.ToDecimal(V14Code(k2)) {
        Decimal.DecimalInjective(V14Code(k1), V14Code(k2));
      } else {
        Decimal.DecimalIsNotWord(V14Code(k1), SelfbotName(k2));
      }
    } else if s == Decimal.ToDecimal(V14Code(k2)) {
      Decimal.DecimalIsNotWord(V14Code(k2), SelfbotName(k1));
    }
  }

  /** The module-level library state of util.ts:19-23 and util.ts:67-98. */
  class ClientLibrary {
    /** discord.js v14 loaded at startup, so its enums are the constant tables. */
    const v14Constants: bool
    /** `discordjsSelfbot`: the selfbot library loaded. */
    const discordjsSelfbot: bool
    /** `discordjs`: truthy once startup finished (util.ts:88-98 fill it in both branches). */
    var discordjs: bool
    var isSelfbotMode: bool

    ghost predicate Valid()
      reads this
    {
      discordjs &&
      (isSelfbotMode ==> discordjsSelfbot) &&
      (!v14Constants ==> discordjsSelfbot)
    }

    /** Startup: try discord.js v14 (and the selfbot library beside it), else
        fall back to the selfbot library in selfbot mode; with neither, loading
        throws, hence the requires. */
    constructor (v14Installed: bool, selfbotInstalled: bool)
      requires v14Installed || selfbotInstalled
      ensures Valid()
      ensures v14Constants == v14Installed && discordjsSelfbot == selfbotInstalled
      ensures isSelfbotMode == !v14Installed
    {
      v14Constants := v14Installed;
      discordjsSelfbot := selfbotInstalled;
      isSelfbotMode := !v14Installed;
      discordjs := true;
    }

    function CurrentMode(): (m: Mode)
      reads this
      ensures m.v14Constants == v14Constants
      ensures m.selfbotBranch <==> isSelfbotMode && discordjsSelfbot
      ensures Valid() ==> (m.selfbotBranch <==> isSelfbotMode)
    {
      Mode(v14Constants, isSelfbotMode && discordjsSelfbot)
    }

    /** `enableSelfbotMode`: succeeds exactly when the selfbot library is loaded. */
    method EnableSelfbotMode() returns (ok: bool)
      requires Valid()
      modifies this
      ensures Valid()
      ensures ok == discordjsSelfbot
      ensures isSelfbotMode == (ok || old(isSelfbotMode))
      ensures discordjs == old(discordjs)
      ensures ok ==> CurrentMode().selfbotBranch
    {
      if discordjsSelfbot {
        isSelfbotMode := true;
        ok := true;
      } else {
        ok := false;
      }
    }

    /** `disableSelfbotMode`: `discordjs` is always set after startup, so this
        always succeeds, even when only the selfbot library is installed. */
    method DisableSelfbotMode() returns (ok: bool)
      requires Valid()
      modifies this
      ensures Valid()
      ensures ok && !isSelfbotMode
      ensures discordjs == old(discordjs)
      ensures !CurrentMode().selfbotBranch
    {
      if discordjs {
        isSelfbotMode := false;
        ok := true;
      } else {
        ok := false;
      }
    }
  }
}
