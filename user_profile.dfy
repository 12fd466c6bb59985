/**
 * The profile page (pages/UserProfile.tsx): the requester's own ticket
 * counts, the editable profile with its defaults, per-field and
 * per-preference edits, and the save that overlays the profile on the user.
 */
module UserProfile {
  import opened Wrappers
  import opened Text
  import opened Seqs
  import opened Entities
  import opened Gateway

  // ----- Ticket counts -----

  datatype ProfileStats = ProfileStats(created: nat, open: nat, resolved: nat)

  function RequestedBy(email: string): Ticket -> bool {
    (t: Ticket) => t.requester_email == email
  }

  function HasStatus(status: string): Ticket -> bool {
    (t: Ticket) => t.status == status
  }

  /**
   * The counts `loadData` computes over `Ticket.filter({requester_email})`
   * (here: the user's own tickets among `tickets`): a ticket is never both
   * open and resolved, so those two never exceed the tickets created.
   */
  function ProfileStatsFor(tickets: seq<Ticket>, email: string): (s: ProfileStats)
    ensures s.created == Count(tickets, RequestedBy(email))
    ensures s.open == Count(Filter(tickets, RequestedBy(email)), HasStatus(Open))
    ensures s.resolved == Count(Filter(tickets, RequestedBy(email)), HasStatus(Resolved))
    ensures s.open + s.resolved <= s.created
  {
    var mine := Filter(tickets, RequestedBy(email));
    CountDisjoint(mine, HasStatus(Open), HasStatus(Resolved));
    ProfileStats(|mine|, Count(mine, HasStatus(Open)), Count(mine, HasStatus(Resolved)))
  }

  // ----- The editable profile -----

  datatype ProfileData = ProfileData(full_name: string, department: string, phone: string,
                                     notification_preferences: NotificationPreferences)

  /** The preferences assumed when the user has none: email and ticket updates on, weekly summary off. */
  const DefaultPreferences: NotificationPreferences := NotificationPreferences(true, true, false)

  /** The profile before anything is loaded. */
  const BlankProfile: ProfileData := ProfileData("", "", "", DefaultPreferences)

  /** `value || ""`. */
  function OrEmpty(o: Option<string>): (s: string)
    ensures Truthy(o) ==> s == o.value
    ensures !Truthy(o) ==> s == ""
  {
    if Truthy(o) then o.value else ""
  }

  /** The profile `loadData` derives from the user: missing texts become `""`, missing preferences the defaults. */
  function ProfileOf(u: User): (pd: ProfileData)
    ensures pd.full_name == (if Truthy(u.full_name) then u.full_name.value else "")
    ensures pd.department == (if Truthy(u.department) then u.department.value else "")
    ensures pd.phone == (if Truthy(u.phone) then u.phone.value else "")
    ensures u.notification_preferences.None? ==> pd.notification_preferences == DefaultPreferences
    ensures u.notification_preferences.Some? ==> pd.notification_preferences == u.notification_preferences.value
  {
    ProfileData(OrEmpty(u.full_name), OrEmpty(u.department), OrEmpty(u.phone),
                u.notification_preferences.GetOr(DefaultPreferences))
  }

  /** The three text fields `handleInputChange` is called with. */
  datatype ProfileField = FullName | Department | Phone

  function TextOf(pd: ProfileData, field: ProfileField): string {
    match field
    case FullName => pd.full_name
    case Department => pd.department
    case Phone => pd.phone
  }

  /** `{...profileData, [field]: value}`: only the named field changes. */
  function SetProfileField(pd: ProfileData, field: ProfileField, value: string): (pd': ProfileData)
    ensures TextOf(pd', field) == value
    ensures forall g: ProfileField :: g != field ==> TextOf(pd', g) == TextOf(pd, g)
    ensures pd'.notification_preferences == pd.notification_preferences
  {
    match field
    case FullName => pd.(full_name := value)
    case Department => pd.(department := value)
    case Phone => pd.(phone := value)
  }

  /** The three switches `handleNotificationChange` is called with. */
  datatype PreferenceField = EmailNotifications | TicketUpdates | WeeklySummary

  function PreferenceOf(p: NotificationPreferences, field: PreferenceField): bool {
    match field
    case EmailNotifications => p.email_notifications
    case TicketUpdates => p.ticket_updates
    case WeeklySummary => p.weekly_summary
  }

  /** The nested spread: only the named preference changes; the other preferences and the text fields keep their values. */
  function SetPreference(pd: ProfileData, field: PreferenceField, value: bool): (pd': ProfileData)
    ensures PreferenceOf(pd'.notification_preferences, field) == value
    ensures forall g: PreferenceField :: g != field ==>
              PreferenceOf(pd'.notification_preferences, g) == PreferenceOf(pd.notification_preferences, g)
    ensures forall g: ProfileField :: TextOf(pd', g) == TextOf(pd, g)
  {
    var p := pd.notification_preferences;
    var p' := match field
      case EmailNotifications => p.(email_notifications := value)
      case TicketUpdates => p.(ticket_updates := value)
      case WeeklySummary => p.(weekly_summary := value);
    pd.(notification_preferences := p')
  }

  /** `{...user, ...profileData}`: the profile's four fields replace the user's; identity, email, role and login stay. */
  function Overlay(u: User, pd: ProfileData): (u': User)
    ensures u'.id == u.id && u'.email == u.email && u'.role == u.role && u'.last_login == u.last_login
    ensures u'.full_name == Some(pd.full_name) && u'.department == Some(pd.department) && u'.phone == Some(pd.phone)
    ensures u'.notification_preferences == Some(pd.notification_preferences)
  {
    u.(full_name := Some(pd.full_name), department := Some(pd.department), phone := Some(pd.phone),
       notification_preferences := Some(pd.notification_preferences))
  }

  /** After a save, reloading the profile from the overlaid user gives back exactly the profile that was saved. */
  lemma OverlayThenProfileRoundTrip(u: User, pd: ProfileData)
    ensures ProfileOf(Overlay(u, pd)) == pd
  {
  }

  /** Deriving the profile, overlaying it and deriving it again is stable. */
  lemma ProfileOfOverlayOwnProfile(u: User)
    ensures ProfileOf(Overlay(u, ProfileOf(u))) == ProfileOf(u)
  {
    OverlayThenProfileRoundTrip(u, ProfileOf(u));
  }

  /** The fields `User.updateMyUserData(profileData)` writes. */
  function ProfilePatch(pd: ProfileData): (p: Record)
    ensures p.Keys == {"full_name", "department", "phone", "notification_preferences"}
  {
    var prefs := pd.notification_preferences;
    map["full_name" := Str(pd.full_name), "department" := Str(pd.department), "phone" := Str(pd.phone),
        "notification_preferences" := Obj(map["email_notifications" := Flag(prefs.email_notifications),
                                              "ticket_updates" := Flag(prefs.ticket_updates),
                                              "weekly_summary" := Flag(prefs.weekly_summary)])]
  }

  /** A boolean field of a stored object, if it holds one. */
  function FlagField(o: map<string, Value>, key: string): Option<bool> {
    if key in o && o[key].Flag? then Some(o[key].b) else None
  }

  /** A text field of a stored record, if it holds one. */
  function TextField(r: Record, key: string): Option<string> {
    if key in r && r[key].Str? then Some(r[key].s) else None
  }

  /** The preferences a stored record holds, when all three flags are there. */
  function PreferencesIn(r: Record): Option<NotificationPreferences> {
    if "notification_preferences" in r && r["notification_preferences"].Obj? then
      var o := r["notification_preferences"].fields;
      var e, t, w := FlagField(o, "email_notifications"), FlagField(o, "ticket_updates"), FlagField(o, "weekly_summary");
      if e.Some? && t.Some? && w.Some? then Some(NotificationPreferences(e.value, t.value, w.value)) else None
    else None
  }

  /** The profile a stored user record holds, when all four profile fields are there and well formed. */
  function ProfileIn(r: Record): Option<ProfileData> {
    var n, d, ph, prefs := TextField(r, "full_name"), TextField(r, "department"), TextField(r, "phone"), PreferencesIn(r);
    if n.Some? && d.Some? && ph.Some? && prefs.Some? then Some(ProfileData(n.value, d.value, ph.value, prefs.value))
    else None
  }

  /**
   * Whatever the user's record held before, after the save's write it holds
   * exactly the saved profile: the patch carries every value of the profile.
   */
  lemma SavedRecordHoldsProfile(r: Record, pd: ProfileData)
    ensures ProfileIn(Patched(r, ProfilePatch(pd))) == Some(pd)
  {
  }

  // ----- The page -----

  class ProfilePage {
    var user: Option<User>
    var stats: ProfileStats
    var profile: ProfileData
    var loading: bool
    var saving: bool

    constructor ()
      ensures user.None? && stats == ProfileStats(0, 0, 0) && profile == BlankProfile
      ensures loading && !saving
    {
      user, stats, profile := None, ProfileStats(0, 0, 0), BlankProfile;
      loading, saving := true, false;
    }

    /**
     * `loadData`: `User.me` (`None` when it fails), then the user's own
     * tickets (`ticketsOk`); user, counts and profile are set together when
     * both succeed; loading ends either way.
     */
    method LoadData(me: Option<User>, tickets: seq<Ticket>, ticketsOk: bool)
      modifies this
      ensures !loading && saving == old(saving)
      ensures me.Some? && ticketsOk ==>
                user == me && stats == ProfileStatsFor(tickets, me.value.email) && profile == ProfileOf(me.value)
      ensures !(me.Some? && ticketsOk) ==> user == old(user) && stats == old(stats) && profile == old(profile)
    {
      if me.Some? && ticketsOk {
        user := me;
        stats := ProfileStatsFor(tickets, me.value.email);
        profile := ProfileOf(me.value);
      }
      loading := false;
    }

    /** `handleInputChange`. */
    method HandleInputChange(field: ProfileField, value: string)
      modifies this
      ensures profile == SetProfileField(old(profile), field, value)
      ensures user == old(user) && stats == old(stats) && loading == old(loading) && saving == old(saving)
    {
      profile := SetProfileField(profile, field, value);
    }

    /** `handleNotificationChange`. */
    method HandleNotificationChange(field: PreferenceField, value: bool)
      modifies this
      ensures profile == SetPreference(old(profile), field, value)
      ensures user == old(user) && stats == old(stats) && loading == old(loading) && saving == old(saving)
    {
      profile := SetPreference(profile, field, value);
    }

    /**
     * `handleSave`: write the profile to the user's own record; on success the
     * page's user becomes the user overlaid with the profile, on failure it
     * stays; saving ends either way. The page renders `user.*`, so saving is
     * only reachable with a loaded user.
     */
    method HandleSave(users: EntityStore, ok: bool)
      requires user.Some?
      modifies this, users
      ensures !saving
      ensures profile == old(profile) && stats == old(stats) && loading == old(loading)
      ensures var written := ok && old(user).value.id in old(users.records);
              && users.records == (if written
                                   then old(users.records)[old(user).value.id :=
                                          Patched(old(users.records)[old(user).value.id], ProfilePatch(profile))]
                                   else old(users.records))
              && user == (if written then Some(Overlay(old(user).value, profile)) else old(user))
    {
      saving := true;
      var written := users.Update(user.value.id, ProfilePatch(profile), ok);
      if written {
        user := Some(Overlay(user.value, profile));
      }
      saving := false;
    }
  }
}
