/**
 * Blend sessions (src/server/api/routers/session.ts): a creator opens a
 * session under a short code, a partner joins it by that code, members
 * read it and configure it, and it expires 24 hours after creation.
 * Times are milliseconds since the epoch, given by the caller.
 */
module Sessions {
  import opened Wrappers
  import opened Catalog
  import opened Trpc
  import Compatibility
  import JoinCode
  import Seqs

  datatype Status = Pending | Active | Generated | Expired

  datatype Playlist = Playlist(id: string, url: string)

  /** One stored session record. */
  datatype Session = Session(
    id: string,
    code: string,
    creatorId: string,
    partnerId: Option<string>,
    status: Status,
    expiresAt: int,
    ratio: Option<real>,
    timeRange: Option<TimeRange>,
    playlistLength: Option<int>,
    creatorData: ListenerCache,
    partnerData: ListenerCache,
    analysis: Option<Compatibility.Analysis>,
    creatorPlaylist: Option<Playlist>,
    partnerPlaylist: Option<Playlist>)

  const DayMs: int := 24 * 60 * 60 * 1000

  const MinRatio: real := 0.3
  const MaxRatio: real := 0.7
  const MinLength: int := 25
  const MaxLength: int := 100

  const ExpiredJoinMessage := "This session has expired. Please create a new one."
  const OwnSessionMessage := "You cannot join your own blend session."
  const HasPartnerMessage := "This session already has a partner."
  const NoAccessMessage := "You don't have access to this session"

  /** The configuration bounds updateConfig enforces. */
  predicate ConfigInBounds(s: Session) {
    && (s.ratio.Some? ==> MinRatio <= s.ratio.value <= MaxRatio)
    && (s.playlistLength.Some? ==> MinLength <= s.playlistLength.value <= MaxLength)
  }

  /** Each listener's cache holds at most one audio-feature record per track id, like the stored JSON object. */
  predicate CachesKeyed(s: Session) {
    && Seqs.DistinctBy(s.creatorData.features, FeatureId)
    && Seqs.DistinctBy(s.partnerData.features, FeatureId)
  }

  predicate IsMember(s: Session, userId: string) {
    s.creatorId == userId || s.partnerId == Some(userId)
  }

  /** The check `new Date() > expiresAt`: strict, so a session is still live at its expiry instant. */
  predicate IsPast(s: Session, now: int) {
    now > s.expiresAt
  }

  // create

  /** The record create stores: pending, no partner, no configuration, expiring in 24 hours. */
  function NewSession(id: string, code: string, userId: string, now: int): (s: Session)
    ensures s.id == id && s.code == code && s.creatorId == userId
    ensures s.partnerId.None? && s.status == Pending && s.expiresAt == now + DayMs
    ensures ConfigInBounds(s) && CachesKeyed(s) && s.analysis.None?
  {
    Session(id, code, userId, None, Pending, now + DayMs, None, None, None,
            EmptyCache, EmptyCache, None, None, None)
  }

  /** nanoid(6).toUpperCase(). */
  function SessionCode(generated: string): string {
    JoinCode.UpperAll(generated)
  }

  function ShareUrl(code: string): string {
    "/join/" + code
  }

  /**
   * A code generated from letters and digits only comes back out of its own
   * share link through the join form.
   */
  lemma ShareUrlRoundTrip(generated: string)
    requires generated != [] && forall i :: 0 <= i < |generated| ==> JoinCode.IsAlnum(generated[i])
    ensures JoinCode.Extract(ShareUrl(SessionCode(generated))) == Some(SessionCode(generated))
  {
    JoinCode.ExtractOwnLink(SessionCode(generated));
  }

  /** The alphabet nanoid draws from by default: letters, digits, '-' and '_'. */
  predicate IsNanoidChar(c: char) {
    JoinCode.IsAlnum(c) || c == '-' || c == '_'
  }

  /**
   * As written: nanoid may generate '-' or '_', which the join form does not
   * accept. For the generated "ab-cde" the share link leads the form to the
   * code "AB" and the bare code is refused.
   */
  lemma NanoidCodeUnjoinable(g: string)
    requires g == "ab-cde"
    ensures |g| == 6 && forall i :: 0 <= i < |g| ==> IsNanoidChar(g[i])
    ensures SessionCode(g) == "AB-CDE"
    ensures JoinCode.HandleSubmit(ShareUrl(SessionCode(g))) == JoinCode.Navigate(ShareUrl("AB"))
    ensures JoinCode.HandleSubmit(SessionCode(g)) == JoinCode.ShowError(JoinCode.BadFormatMessage)
  {
    DashedNanoid(g);
    DashedSessionCode(g);
    DashedLinkMisread(SessionCode(g), "AB");
    DashedCodeRefused(SessionCode(g));
  }

  lemma DashedNanoid(g: string)
    requires g == "ab-cde"
    ensures |g| == 6 && forall i :: 0 <= i < |g| ==> IsNanoidChar(g[i])
  {
    assert g[0] == 'a' && g[1] == 'b' && g[2] == '-' && g[3] == 'c' && g[4] == 'd' && g[5] == 'e';
  }

  lemma DashedSessionCode(g: string)
    requires g == "ab-cde"
    ensures SessionCode(g) == "AB-CDE"
  {
    var u := SessionCode(g);
    assert u[0] == 'A' && u[1] == 'B' && u[2] == '-' && u[3] == 'C' && u[4] == 'D' && u[5] == 'E';
  }

  lemma DashedLinkMisread(code: string, head: string)
    requires code == "AB-CDE" && head == "AB"
    ensures JoinCode.HandleSubmit(ShareUrl(code)) == JoinCode.Navigate(ShareUrl(head))
  {
    var rest := code[2..];
    assert code == head + rest;
    LinkStopsAtNonAlnum(head, rest);
    JoinCode.UpperAllIdentity(head);
  }

  lemma DashedCodeRefused(code: string)
    requires code == "AB-CDE"
    ensures JoinCode.HandleSubmit(code) == JoinCode.ShowError(JoinCode.BadFormatMessage)
  {
    JoinCode.TrimIdentity(code);
    assert '/' !in code;
    JoinCode.NoSlashNoLink(code);
    assert !JoinCode.IsBareCode(code) by {
      assert !JoinCode.IsAlnum(code[2]);
    }
  }

  /** The join form reads a link's code only up to the first character that is not a letter or digit. */
  lemma LinkStopsAtNonAlnum(run: string, rest: string)
    requires run != [] && forall i :: 0 <= i < |run| ==> JoinCode.IsAlnum(run[i])
    requires rest != [] && !JoinCode.IsAlnum(rest[0]) && !JoinCode.IsJsWhitespace(rest[|rest| - 1])
    ensures JoinCode.HandleSubmit(ShareUrl(run + rest)) == JoinCode.Navigate(ShareUrl(JoinCode.UpperAll(run)))
  {
    var url := [] + "/join/" + run + rest;
    assert ShareUrl(run + rest) == url;
    JoinCode.ExtractFromLink([], run, rest);
    assert url[0] == '/' && url[|url| - 1] == rest[|rest| - 1];
    JoinCode.TrimIdentity(url);
  }

  /**
   * Corrected: with codes drawn from letters and digits only, both the share
   * link and the bare six-character code take the join form to the session's
   * own join page.
   */
  lemma AlphanumericCodeJoinable(generated: string)
    requires |generated| == 6 && forall i :: 0 <= i < 6 ==> JoinCode.IsAlnum(generated[i])
    ensures JoinCode.HandleSubmit(ShareUrl(SessionCode(generated))) == JoinCode.Navigate(ShareUrl(SessionCode(generated)))
    ensures JoinCode.HandleSubmit(SessionCode(generated)) == JoinCode.Navigate(ShareUrl(SessionCode(generated)))
  {
    var code := SessionCode(generated);
    assert forall i :: 0 <= i < |code| ==> JoinCode.IsUpperAlnum(code[i]);
    OwnLinkJoinable(code);
    BareCodeJoinable(code);
  }

  lemma OwnLinkJoinable(code: string)
    requires code != [] && forall i :: 0 <= i < |code| ==> JoinCode.IsUpperAlnum(code[i])
    ensures JoinCode.HandleSubmit(ShareUrl(code)) == JoinCode.Navigate(ShareUrl(code))
  {
    var url := ShareUrl(code);
    JoinCode.ExtractOwnLink(code);
    assert url[0] == '/' && url[|url| - 1] == code[|code| - 1];
    JoinCode.TrimIdentity(url);
  }

  lemma BareCodeJoinable(code: string)
    requires |code| == 6 && forall i :: 0 <= i < 6 ==> JoinCode.IsUpperAlnum(code[i])
    ensures JoinCode.HandleSubmit(code) == JoinCode.Navigate(ShareUrl(code))
  {
    assert JoinCode.IsBareCode(code);
    JoinCode.ExtractBareCode(code);
    JoinCode.TrimIdentity(code);
  }

  // join

  /** The record join stores and its answer, for the session the code found. */
  datatype Step = Step(stored: Session, answer: Result<Session, Error>)

  function JoinStep(s: Session, userId: string, now: int): Step {
    if IsPast(s, now) then
      Step(s.(status := Expired), Failure(Error(BadRequest, ExpiredJoinMessage)))
    else if s.creatorId == userId then
      Step(s, Failure(Error(BadRequest, OwnSessionMessage)))
    else if Given(s.partnerId) then
      if s.partnerId.value == userId then Step(s, Success(s))
      else Step(s, Failure(Error(BadRequest, HasPartnerMessage)))
    else
      var joined := s.(partnerId := Some(userId), status := Active);
      Step(joined, Success(joined))
  }

  /**
   * The order of join's checks: a past expiry fails first and marks the
   * session expired whoever asks; then the creator is refused; then a
   * session with another partner.
   */
  lemma JoinChecks(s: Session, userId: string, now: int)
    ensures IsPast(s, now) ==>
      JoinStep(s, userId, now) == Step(s.(status := Expired), Failure(Error(BadRequest, ExpiredJoinMessage)))
    ensures !IsPast(s, now) && s.creatorId == userId ==>
      JoinStep(s, userId, now) == Step(s, Failure(Error(BadRequest, OwnSessionMessage)))
    ensures !IsPast(s, now) && s.creatorId != userId && Given(s.partnerId) && s.partnerId.value != userId ==>
      JoinStep(s, userId, now) == Step(s, Failure(Error(BadRequest, HasPartnerMessage)))
    ensures JoinStep(s, userId, now).answer.Failure? ==>
      JoinStep(s, userId, now).answer.error.code == BadRequest
  {
  }

  /**
   * Join succeeds exactly for a live session that the caller did not create
   * and that has no partner (no id, or the falsy "") or has the caller as partner; on success the
   * session answered is the one stored, with the caller as partner.
   */
  lemma JoinSucceeds(s: Session, userId: string, now: int)
    ensures JoinStep(s, userId, now).answer.Success? <==>
      !IsPast(s, now) && s.creatorId != userId && (!Given(s.partnerId) || s.partnerId == Some(userId))
    ensures JoinStep(s, userId, now).answer.Success? ==>
      JoinStep(s, userId, now).answer.value == JoinStep(s, userId, now).stored
      && JoinStep(s, userId, now).stored.partnerId == Some(userId)
      && IsMember(JoinStep(s, userId, now).stored, userId)
  {
  }

  /** A first join sets the partner and ACTIVE and changes nothing else. */
  lemma JoinAttaches(s: Session, userId: string, now: int)
    requires !IsPast(s, now) && s.creatorId != userId && !Given(s.partnerId)
    ensures JoinStep(s, userId, now).stored == s.(partnerId := Some(userId), status := Active)
  {
  }

  /** Joining again as the partner answers the session as it is and stores nothing new. */
  lemma JoinIdempotent(s: Session, userId: string, now: int, later: int)
    requires JoinStep(s, userId, now).answer.Success?
    requires later <= s.expiresAt
    ensures var t := JoinStep(s, userId, now).stored;
      JoinStep(t, userId, later) == Step(t, Success(t))
  {
  }

  /** Whatever join does, the session keeps its id, code, creator, expiry and configuration. */
  lemma JoinKeepsIdentity(s: Session, userId: string, now: int)
    ensures var t := JoinStep(s, userId, now).stored;
      && t.id == s.id && t.code == s.code && t.creatorId == s.creatorId
      && t.expiresAt == s.expiresAt && t.ratio == s.ratio && t.timeRange == s.timeRange
      && t.playlistLength == s.playlistLength && t.analysis == s.analysis
  {
  }

  // get

  /** `!input.id && !input.code`: an absent or empty string is falsy. */
  predicate Given(x: Option<string>) {
    x.Some? && x.value != ""
  }

  /** The record the id or the code designates. */
  predicate Designates(s: Session, id: Option<string>, code: Option<string>) {
    (id.Some? && s.id == id.value) || (code.Some? && s.code == code.value)
  }

  /** What get stores and answers for the record it found. */
  function GetStep(s: Session, userId: string, now: int): Step {
    if !IsMember(s, userId) then Step(s, Failure(Error(Forbidden, NoAccessMessage)))
    else if IsPast(s, now) && s.status != Expired then
      var expired := s.(status := Expired);
      Step(expired, Success(expired))
    else Step(s, Success(s))
  }

  /**
   * Only members read a session; a read after the expiry instant marks it
   * expired (once), and otherwise nothing is stored.
   */
  lemma GetReads(s: Session, userId: string, now: int)
    ensures GetStep(s, userId, now).answer.Success? <==> IsMember(s, userId)
    ensures GetStep(s, userId, now).answer.Failure? ==>
      GetStep(s, userId, now) == Step(s, Failure(Error(Forbidden, NoAccessMessage)))
    ensures GetStep(s, userId, now).answer.Success? ==>
      && GetStep(s, userId, now).answer.value == GetStep(s, userId, now).stored
      && GetStep(s, userId, now).stored
         == if IsPast(s, now) then s.(status := Expired) else s
  {
  }

  /** Reading twice stores what reading once stores. */
  lemma GetIdempotent(s: Session, userId: string, now: int)
    ensures var t := GetStep(s, userId, now).stored;
      GetStep(t, userId, now) == Step(t, GetStep(s, userId, now).answer)
  {
  }

  // updateConfig

  /** The supplied configuration fields, already validated. */
  datatype ConfigUpdate = ConfigUpdate(ratio: Option<real>, timeRange: Option<TimeRange>, playlistLength: Option<int>)

  /** z.enum(["short_term", "medium_term", "long_term"]). */
  function ParseTimeRange(s: string): Option<TimeRange> {
    if s == "short_term" then Some(ShortTerm)
    else if s == "medium_term" then Some(MediumTerm)
    else if s == "long_term" then Some(LongTerm)
    else None
  }

  const InvalidInputMessage := "Invalid input"

  /** The zod schema: ratio in [0.3, 0.7], playlistLength in [25, 100], timeRange one of three names. */
  function ValidateConfig(ratio: Option<real>, timeRange: Option<string>, playlistLength: Option<int>): (r: Result<ConfigUpdate, Error>)
    ensures r.Success? <==>
      && (ratio.Some? ==> MinRatio <= ratio.value <= MaxRatio)
      && (playlistLength.Some? ==> MinLength <= playlistLength.value <= MaxLength)
      && (timeRange.Some? ==> ParseTimeRange(timeRange.value).Some?)
    ensures r.Failure? ==> r.error.code == BadRequest
    ensures r.Success? ==>
      && r.value.ratio == ratio && r.value.playlistLength == playlistLength
      && (r.value.timeRange.Some? <==> timeRange.Some?)
  {
    if ratio.Some? && !(MinRatio <= ratio.value <= MaxRatio) then Failure(Error(BadRequest, InvalidInputMessage))
    else if playlistLength.Some? && !(MinLength <= playlistLength.value <= MaxLength) then Failure(Error(BadRequest, InvalidInputMessage))
    else if timeRange.Some? && ParseTimeRange(timeRange.value).None? then Failure(Error(BadRequest, InvalidInputMessage))
    else Success(ConfigUpdate(ratio, if timeRange.Some? then ParseTimeRange(timeRange.value) else None, playlistLength))
  }

  /** data: updates — a field left out of the input keeps its stored value. */
  function ApplyConfig(s: Session, u: ConfigUpdate): Session {
    s.(ratio := if u.ratio.Some? then u.ratio else s.ratio,
       timeRange := if u.timeRange.Some? then u.timeRange else s.timeRange,
       playlistLength := if u.playlistLength.Some? then u.playlistLength else s.playlistLength)
  }

  /**
   * An update changes exactly the supplied fields and nothing else, and
   * keeps a configuration within bounds.
   */
  lemma ApplyConfigChangesOnlySupplied(s: Session, ratio: Option<real>, timeRange: Option<string>, playlistLength: Option<int>)
    requires ValidateConfig(ratio, timeRange, playlistLength).Success?
    ensures var t := ApplyConfig(s, ValidateConfig(ratio, timeRange, playlistLength).value);
      && t.ratio == (if ratio.Some? then ratio else s.ratio)
      && t.playlistLength == (if playlistLength.Some? then playlistLength else s.playlistLength)
      && (timeRange.Some? ==> t.timeRange == ParseTimeRange(timeRange.value))
      && (timeRange.None? ==> t.timeRange == s.timeRange)
      && t.(ratio := s.ratio, timeRange := s.timeRange, playlistLength := s.playlistLength) == s
      && (ConfigInBounds(s) ==> ConfigInBounds(t))
  {
  }

  /** An empty update changes nothing; applying the same update twice is applying it once. */
  lemma ApplyConfigIdempotent(s: Session, u: ConfigUpdate)
    ensures ApplyConfig(s, ConfigUpdate(None, None, None)) == s
    ensures ApplyConfig(ApplyConfig(s, u), u) == ApplyConfig(s, u)
  {
  }

  // The store

  /** The records created by one creation. */
  datatype Created = Created(id: string, code: string, shareUrl: string, expiresAt: int)

  const SessionNotFoundMessage := "Session not found"
  const JoinNotFoundMessage := "Session not found. Please check the code and try again."
  const NoSelectorMessage := "Either id or code must be provided"
  const DuplicateMessage := "Unique constraint failed"

  /** Records are filed under their id, codes are unique, configurations within bounds, caches keyed by track id. */
  predicate WellFormed(sessions: map<string, Session>) {
    && (forall id :: id in sessions ==> sessions[id].id == id)
    && (forall a, b :: a in sessions && b in sessions && sessions[a].code == sessions[b].code ==> a == b)
    && (forall id :: id in sessions ==> ConfigInBounds(sessions[id]))
    && (forall id :: id in sessions ==> CachesKeyed(sessions[id]))
  }

  /** Rewriting a stored record that keeps its id and code and stays in bounds keeps the store well formed. */
  lemma ReplaceKeepsWellFormed(sessions: map<string, Session>, id: string, t: Session)
    requires WellFormed(sessions) && id in sessions
    requires t.id == sessions[id].id && t.code == sessions[id].code
    requires ConfigInBounds(t) && CachesKeyed(t)
    ensures WellFormed(sessions[id := t])
  {
  }

  /** The persisted sessions, by id. */
  class SessionStore {
    var sessions: map<string, Session>

    predicate Valid()
      reads this
    {
      WellFormed(sessions)
    }

    predicate CodeInUse(code: string)
      reads this
    {
      exists id :: id in sessions && sessions[id].code == code
    }

    constructor ()
      ensures Valid() && sessions == map[]
    {
      sessions := map[];
    }

    /**
     * create: a pending session under the upper-cased generated code; an id
     * or code already stored violates the table's uniqueness and fails.
     */
    method Create(userId: string, newId: string, generated: string, now: int) returns (r: Result<Created, Error>)
      requires Valid()
      modifies this
      ensures Valid()
      ensures var code := SessionCode(generated);
        if newId in old(sessions) || old(CodeInUse(code)) then
          r == Failure(Error(InternalServerError, DuplicateMessage)) && sessions == old(sessions)
        else
          && sessions == old(sessions)[newId := NewSession(newId, code, userId, now)]
          && r == Success(Created(newId, code, ShareUrl(code), now + DayMs))
    {
      var code := SessionCode(generated);
      if newId in sessions || CodeInUse(code) {
        return Failure(Error(InternalServerError, DuplicateMessage));
      }
      sessions := sessions[newId := NewSession(newId, code, userId, now)];
      r := Success(Created(newId, code, ShareUrl(code), now + DayMs));
    }

    /** join: look the code up, then apply JoinStep and store what it stores. */
    method Join(userId: string, code: string, now: int) returns (r: Result<Session, Error>)
      requires Valid()
      modifies this
      ensures Valid()
      ensures code == "" ==> r == Failure(Error(BadRequest, InvalidInputMessage)) && sessions == old(sessions)
      ensures code != "" && !old(CodeInUse(code)) ==>
        r == Failure(Error(NotFound, JoinNotFoundMessage)) && sessions == old(sessions)
      ensures code != "" && old(CodeInUse(code)) ==>
        exists id :: id in old(sessions) && old(sessions)[id].code == code
          && r == JoinStep(old(sessions)[id], userId, now).answer
          && sessions == old(sessions)[id := JoinStep(old(sessions)[id], userId, now).stored]
    {
      if code == "" {
        return Failure(Error(BadRequest, InvalidInputMessage));
      }
      if !CodeInUse(code) {
        return Failure(Error(NotFound, JoinNotFoundMessage));
      }
      var id :| id in sessions && sessions[id].code == code;
      var step := JoinStep(sessions[id], userId, now);
      JoinKeepsIdentity(sessions[id], userId, now);
      ReplaceKeepsWellFormed(sessions, id, step.stored);
      sessions := sessions[id := step.stored];
      r := step.answer;
      assert id in old(sessions) && old(sessions)[id].code == code;
    }

    /** get: by id or by code; non-members are refused; a past expiry is stored on read. */
    method Get(userId: string, id: Option<string>, code: Option<string>, now: int) returns (r: Result<Session, Error>)
      requires Valid()
      modifies this
      ensures Valid()
      ensures !Given(id) && !Given(code) ==>
        r == Failure(Error(BadRequest, NoSelectorMessage)) && sessions == old(sessions)
      ensures (Given(id) || Given(code)) && (forall k :: k in old(sessions) ==> !Designates(old(sessions)[k], id, code)) ==>
        r == Failure(Error(NotFound, SessionNotFoundMessage)) && sessions == old(sessions)
      ensures r.Success? ==> Designates(r.value, id, code) && IsMember(r.value, userId)
      ensures (Given(id) || Given(code)) && (exists k :: k in old(sessions) && Designates(old(sessions)[k], id, code)) ==>
        exists k :: k in old(sessions) && Designates(old(sessions)[k], id, code)
          && r == GetStep(old(sessions)[k], userId, now).answer
          && sessions == old(sessions)[k := GetStep(old(sessions)[k], userId, now).stored]
    {
      if !Given(id) && !Given(code) {
        return Failure(Error(BadRequest, NoSelectorMessage));
      }
      if k :| k in sessions && Designates(sessions[k], id, code) {
        var step := GetStep(sessions[k], userId, now);
        assert step.stored.id == sessions[k].id && step.stored.code == sessions[k].code;
        assert ConfigInBounds(step.stored) && CachesKeyed(step.stored);
        ReplaceKeepsWellFormed(sessions, k, step.stored);
        sessions := sessions[k := step.stored];
        r := step.answer;
        GetReads(old(sessions)[k], userId, now);
      } else {
        r := Failure(Error(NotFound, SessionNotFoundMessage));
      }
    }

    /** updateConfig: validate the input, find the session, refuse non-members, apply. */
    method UpdateConfig(userId: string, sessionId: string, ratio: Option<real>, timeRange: Option<string>, playlistLength: Option<int>)
      returns (r: Result<Session, Error>)
      requires Valid()
      modifies this
      ensures Valid()
      ensures r.Failure? ==> sessions == old(sessions)
      ensures ValidateConfig(ratio, timeRange, playlistLength).Failure? ==>
        r == Failure(ValidateConfig(ratio, timeRange, playlistLength).error)
      ensures ValidateConfig(ratio, timeRange, playlistLength).Success? && sessionId !in old(sessions) ==>
        r == Failure(Error(NotFound, SessionNotFoundMessage))
      ensures (ValidateConfig(ratio, timeRange, playlistLength).Success? && sessionId in old(sessions)
               && !IsMember(old(sessions)[sessionId], userId)) ==>
        r == Failure(Error(Forbidden, NoAccessMessage))
      ensures (ValidateConfig(ratio, timeRange, playlistLength).Success? && sessionId in old(sessions)
               && IsMember(old(sessions)[sessionId], userId)) ==>
        r.Success?
      ensures r.Success? ==>
        && sessionId in old(sessions) && IsMember(old(sessions)[sessionId], userId)
        && r.value == ApplyConfig(old(sessions)[sessionId], ValidateConfig(ratio, timeRange, playlistLength).value)
        && sessions == old(sessions)[sessionId := r.value]
    {
      var update := ValidateConfig(ratio, timeRange, playlistLength);
      if update.Failure? {
        return Failure(update.error);
      }
      if sessionId !in sessions {
        return Failure(Error(NotFound, SessionNotFoundMessage));
      }
      var s := sessions[sessionId];
      if !IsMember(s, userId) {
        return Failure(Error(Forbidden, NoAccessMessage));
      }
      ApplyConfigChangesOnlySupplied(s, ratio, timeRange, playlistLength);
      var t := ApplyConfig(s, update.value);
      sessions := sessions[sessionId := t];
      r := Success(t);
    }
  }
}
