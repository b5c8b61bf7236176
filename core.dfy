// The tenant layer: resolving the organization from the request path,
// organization slugs, the free-trial window and memberships.

module Core {
  import opened Common
  import opened Text
  import opened Dates

  // --- resolve_org_from_path -------------------------------------------------

  /** `[p for p in parts if p]`. */
  function NonEmptyParts(parts: seq<string>): (r: seq<string>)
    ensures forall k :: 0 <= k < |r| ==> r[k] != ""
    ensures |r| <= |parts|
  {
    if parts == [] then []
    else if parts[0] == "" then NonEmptyParts(parts[1..])
    else [parts[0]] + NonEmptyParts(parts[1..])
  }

  lemma {:induction false} NonEmptyPartsAppend(a: seq<string>, b: seq<string>)
    ensures NonEmptyParts(a + b) == NonEmptyParts(a) + NonEmptyParts(b)
    decreases |a|
  {
    if a != [] {
      assert (a + b)[0] == a[0];
      assert (a + b)[1..] == a[1..] + b;
      NonEmptyPartsAppend(a[1..], b);
      if a[0] == "" {
        assert NonEmptyParts(a + b) == NonEmptyParts(a[1..] + b);
      } else {
        assert NonEmptyParts(a + b) == [a[0]] + NonEmptyParts(a[1..] + b);
      }
    } else {
      assert a + b == b;
    }
  }

  /** The index of the first "t" segment, if any. */
  function FirstT(parts: seq<string>): (r: Option<nat>)
    ensures r.None? <==> "t" !in parts
    ensures r.Some? ==> r.value < |parts| && parts[r.value] == "t"
    ensures r.Some? ==> forall j :: 0 <= j < r.value ==> parts[j] != "t"
  {
    if parts == [] then None
    else if parts[0] == "t" then Some(0)
    else
      match FirstT(parts[1..])
        case None => assert parts == [parts[0]] + parts[1..]; None
        case Some(i) => Some(i + 1)
  }

  /** The segments of a path, empty ones dropped. */
  function Segments(path: string): seq<string>
  {
    NonEmptyParts(Split(path, '/'))
  }

  /**
   * `resolve_org_from_path`: the segment right after the first "t" segment;
   * nothing when there is no "t" or it is the last segment.
   */
  function ResolveOrgFromPath(path: string): (r: Option<string>)
    ensures r.Some? ==> r.value != "" && '/' !in r.value
    ensures r.Some? <==> FirstT(Segments(path)).Some? && FirstT(Segments(path)).value + 1 < |Segments(path)|
    ensures r.Some? ==> r.value == Segments(path)[FirstT(Segments(path)).value + 1]
  {
    var parts := Segments(path);
    match FirstT(parts)
      case None => None
      case Some(i) =>
        if i + 1 < |parts| then
          SegmentsHaveNoSlash(path);
          Some(parts[i + 1])
        else None
  }

  lemma {:induction false} NonEmptyPartsFrom(parts: seq<string>, c: char)
    requires forall k :: 0 <= k < |parts| ==> c !in parts[k]
    ensures forall k :: 0 <= k < |NonEmptyParts(parts)| ==> c !in NonEmptyParts(parts)[k]
  {
    if parts != [] {
      assert forall k :: 0 <= k < |parts[1..]| ==> parts[1..][k] == parts[k + 1];
      NonEmptyPartsFrom(parts[1..], c);
    }
  }

  lemma SegmentsHaveNoSlash(path: string)
    ensures forall k :: 0 <= k < |Segments(path)| ==> '/' !in Segments(path)[k]
  {
    NonEmptyPartsFrom(Split(path, '/'), '/');
  }

  /** A leading slash does not change the segments. */
  lemma LeadingSlash(path: string)
    ensures Segments("/" + path) == Segments(path)
  {
    assert "/" + path == [] + ['/'] + path;
    SplitConcat([], path, '/');
    assert Split([], '/') == [[]];
    NonEmptyPartsAppend([[]], Split(path, '/'));
  }

  /** A trailing slash does not change the segments. */
  lemma TrailingSlash(path: string)
    ensures Segments(path + "/") == Segments(path)
  {
    assert path + "/" == path + ['/'] + [];
    SplitConcat(path, [], '/');
    assert Split([], '/') == [[]];
    NonEmptyPartsAppend(Split(path, '/'), [[]]);
  }

  lemma SplitAtSlash(a: string, b: string)
    ensures Split(a + "/" + b, '/') == Split(a, '/') + Split(b, '/')
  {
    assert a + "/" + b == a + ['/'] + b;
    SplitConcat(a, b, '/');
  }

  lemma SplitAtDoubleSlash(a: string, b: string)
    ensures Split(a + "//" + b, '/') == Split(a, '/') + [[]] + Split(b, '/')
  {
    var t := ['/'] + b;
    assert "//" == ['/', '/'];
    assert a + "//" + b == a + ['/'] + t by {
      assert |a + "//" + b| == |a + ['/'] + t|;
      forall k | 0 <= k < |a| + 2 + |b| ensures (a + "//" + b)[k] == (a + ['/'] + t)[k] {
        if k >= |a| + 2 { assert (a + "//" + b)[k] == b[k - |a| - 2] == t[k - |a| - 1]; }
      }
    }
    SplitConcat(a, t, '/');
    LeadingSeparator(b, '/');
  }

  lemma LeadingSeparator(b: string, c: char)
    ensures Split([c] + b, c) == [[]] + Split(b, c)
  {
    assert IndexOf([c] + b, c) == Some(0);
    assert ([c] + b)[1..] == b;
  }

  /** Doubling a slash does not change the segments. */
  lemma RepeatedSlash(a: string, b: string)
    ensures Segments(a + "//" + b) == Segments(a + "/" + b)
  {
    SplitAtDoubleSlash(a, b);
    SplitAtSlash(a, b);
    NonEmptyPartsAppend(Split(a, '/') + [[]], Split(b, '/'));
    NonEmptyPartsAppend(Split(a, '/'), [[]]);
    NonEmptyPartsAppend(Split(a, '/'), Split(b, '/'));
  }

  /** Hence the resolved slug does not depend on leading, trailing or doubled slashes. */
  lemma ResolveIgnoresSlashes(path: string, a: string, b: string)
    ensures ResolveOrgFromPath("/" + path) == ResolveOrgFromPath(path)
    ensures ResolveOrgFromPath(path + "/") == ResolveOrgFromPath(path)
    ensures ResolveOrgFromPath(a + "//" + b) == ResolveOrgFromPath(a + "/" + b)
  {
    LeadingSlash(path);
    TrailingSlash(path);
    RepeatedSlash(a, b);
  }

  /**
   * `TenantMiddleware.process_request`, org resolution only: `request.org` is
   * the organization whose slug the path names, and None when the path names
   * none or no organization has that slug. `orgs` maps slugs to organizations.
   */
  function RequestOrg(path: string, orgs: map<string, OrgId>): (r: Option<OrgId>)
    ensures r.Some? <==> ResolveOrgFromPath(path).Some? && ResolveOrgFromPath(path).value in orgs
    ensures r.Some? ==> r.value == orgs[ResolveOrgFromPath(path).value]
  {
    var slug := ResolveOrgFromPath(path);
    if slug.Some? && slug.value != "" && slug.value in orgs then Some(orgs[slug.value]) else None
  }

  // --- slug_validator ------------------------------------------------------------

  predicate SlugChar(c: char)
  {
    IsLowerAscii(c) || IsDigit(c)
  }

  predicate SlugRun(run: string)
  {
    run != [] && forall k :: 0 <= k < |run| ==> SlugChar(run[k])
  }

  predicate SlugRuns(runs: seq<string>)
  {
    |runs| >= 1 && forall k :: 0 <= k < |runs| ==> SlugRun(runs[k])
  }

  /** `^[a-z0-9]+(?:-[a-z0-9]+)*$`: one or more runs of [a-z0-9] joined by single hyphens. */
  ghost predicate MatchesSlugPattern(s: string)
  {
    exists runs :: SlugRuns(runs) && Join(runs, '-') == s
  }

  /** The check: every hyphen-separated piece is a non-empty run of [a-z0-9]. */
  predicate ValidSlug(s: string)
  {
    SlugRuns(Split(s, '-'))
  }

  /** The check accepts exactly the slugs the pattern matches. */
  lemma ValidSlugMatchesPattern(s: string)
    ensures ValidSlug(s) <==> MatchesSlugPattern(s)
  {
    if ValidSlug(s) {
      JoinSplit(s, '-');
    }
    if MatchesSlugPattern(s) {
      var runs :| SlugRuns(runs) && Join(runs, '-') == s;
      forall k | 0 <= k < |runs| ensures '-' !in runs[k] {
        assert forall j :: 0 <= j < |runs[k]| ==> SlugChar(runs[k][j]);
      }
      SplitJoin(runs, '-');
    }
  }

  /** The characters of joined runs: [a-z0-9] or '-', never at either end, and never two '-' in a row. */
  predicate SlugShape(s: string)
  {
    && s != []
    && (forall k :: 0 <= k < |s| ==> SlugChar(s[k]) || s[k] == '-')
    && s[0] != '-' && s[|s| - 1] != '-'
    && forall k :: 0 <= k < |s| - 1 && s[k] == '-' ==> s[k + 1] != '-'
  }

  lemma {:induction false} JoinedRunsShape(runs: seq<string>)
    requires SlugRuns(runs)
    ensures SlugShape(Join(runs, '-'))
    decreases |runs|
  {
    if |runs| > 1 {
      var rest := runs[1..];
      assert forall k :: 0 <= k < |rest| ==> rest[k] == runs[k + 1];
      JoinedRunsShape(rest);
      var a, t := runs[0], Join(rest, '-');
      var s := a + ['-'] + t;
      assert Join(runs, '-') == s;
      assert SlugRun(a);
      assert forall k :: 0 <= k < |a| ==> s[k] == a[k];
      forall k | 0 <= k < |s| - 1 && s[k] == '-' ensures s[k + 1] != '-' {
        if k == |a| {
          assert s[k + 1] == t[0];
        } else if k > |a| {
          assert s[k] == t[k - |a| - 1] && s[k + 1] == t[k - |a|];
        }
      }
      forall k | 0 <= k < |s| ensures SlugChar(s[k]) || s[k] == '-' {
        if k < |a| {
          assert s[k] == a[k];
        } else if k > |a| {
          assert s[k] == t[k - |a| - 1];
        }
      }
      assert s[|s| - 1] == t[|t| - 1];
    }
  }

  /** What follows a hyphen of a slug-shaped text is slug-shaped too. */
  lemma SlugShapeAfterHyphen(s: string, i: nat)
    requires SlugShape(s) && i < |s| && s[i] == '-'
    ensures SlugShape(s[i + 1..])
  {
    var tail := s[i + 1..];
    assert i < |s| - 1;
    assert tail[0] == s[i + 1];
    forall k | 0 <= k < |tail| ensures SlugChar(tail[k]) || tail[k] == '-' {
      assert tail[k] == s[i + 1 + k];
    }
    forall k | 0 <= k < |tail| - 1 && tail[k] == '-' ensures tail[k + 1] != '-' {
      assert tail[k] == s[i + 1 + k] && tail[k + 1] == s[i + 2 + k];
    }
    assert tail[|tail| - 1] == s[|s| - 1];
  }

  /** The text before the first hyphen of a slug-shaped text is one run. */
  lemma SlugRunBeforeHyphen(s: string, i: nat)
    requires SlugShape(s) && i < |s| && s[i] == '-' && '-' !in s[..i]
    ensures SlugRun(s[..i])
  {
    var head := s[..i];
    assert i > 0;
    forall k | 0 <= k < |head| ensures SlugChar(head[k]) {
      assert head[k] == s[k];
      assert head[k] in head;
    }
  }

  lemma SlugRunsCons(head: string, rest: seq<string>)
    requires SlugRun(head) && SlugRuns(rest)
    ensures SlugRuns([head] + rest)
  {
    var runs := [head] + rest;
    forall k | 0 <= k < |runs| ensures SlugRun(runs[k]) {
      if k > 0 {
        assert runs[k] == rest[k - 1];
      }
    }
  }

  lemma {:induction false} ShapeIsValid(s: string)
    requires SlugShape(s)
    ensures ValidSlug(s)
    decreases |s|
  {
    match IndexOf(s, '-')
      case None =>
        SplitNoSeparator(s, '-');
        forall k | 0 <= k < |s| ensures SlugChar(s[k]) {
          assert s[k] in s;
        }
        assert SlugRun(s);
      case Some(i) =>
        assert Split(s, '-') == [s[..i]] + Split(s[i + 1..], '-');
        SlugShapeAfterHyphen(s, i);
        ShapeIsValid(s[i + 1..]);
        SlugRunBeforeHyphen(s, i);
        SlugRunsCons(s[..i], Split(s[i + 1..], '-'));
  }

  /** A slug is valid exactly when it is non-empty [a-z0-9-] text with no leading, trailing or doubled hyphen. */
  lemma ValidSlugShape(s: string)
    ensures ValidSlug(s) <==> SlugShape(s)
  {
    if ValidSlug(s) {
      JoinSplit(s, '-');
      JoinedRunsShape(Split(s, '-'));
    }
    if SlugShape(s) {
      ShapeIsValid(s);
    }
  }

  // --- Organization ------------------------------------------------------------------

  const TrialDays := 7
  const SecondsPerDay := 86400

  /** An organization: its slug and its free-trial window (`trial_ends_at` is unset before the first save). */
  class Organization {
    const id: OrgId
    var name: string
    var slug: string
    var trialStartsAt: Timestamp
    var trialEndsAt: Option<Timestamp>

    constructor (id: OrgId, name: string, slug: string, now: Timestamp, trialEndsAt: Option<Timestamp>)
      ensures this.id == id && this.name == name && this.slug == slug
      ensures this.trialStartsAt == now && this.trialEndsAt == trialEndsAt
    {
      this.id := id;
      this.name := name;
      this.slug := slug;
      this.trialStartsAt := now;
      this.trialEndsAt := trialEndsAt;
    }

    /** `save`: a missing trial end becomes seven days from now; one already set is kept. */
    method Save(now: Timestamp)
      modifies this
      ensures trialEndsAt == Some(TrialEndAfterSave(old(trialEndsAt), now))
      ensures name == old(name) && slug == old(slug) && trialStartsAt == old(trialStartsAt)
    {
      if trialEndsAt.None? {
        trialEndsAt := Some(now + TrialDays * SecondsPerDay);
      }
    }

    /** `is_trial_active`: strictly before the trial end. */
    predicate IsTrialActive(now: Timestamp)
      requires trialEndsAt.Some?
      reads this
    {
      now < trialEndsAt.value
    }
  }

  /** The trial end `save` stores for a stored value and the time of saving. */
  function TrialEndAfterSave(stored: Option<Timestamp>, now: Timestamp): (r: Timestamp)
    ensures stored.Some? ==> r == stored.value
    ensures stored.None? ==> r - now == 7 * 24 * 3600
  {
    if stored.None? then now + TrialDays * SecondsPerDay else stored.value
  }

  /** A trial saved without an end is active for exactly seven days from the save. */
  lemma FreshTrialWindow(now: Timestamp, t: Timestamp)
    requires now <= t
    ensures t < TrialEndAfterSave(None, now) <==> t - now < 604800
  {
  }

  /** `save` stores what `TrialEndAfterSave` says. */
  method SaveNewOrganization(id: OrgId, name: string, slug: string, now: Timestamp) returns (o: Organization)
    ensures fresh(o) && o.trialEndsAt == Some(TrialEndAfterSave(None, now))
    ensures o.IsTrialActive(now)
  {
    o := new Organization(id, name, slug, now, None);
    o.Save(now);
  }

  // --- Membership ----------------------------------------------------------------------

  /** `ROLE_CHOICES`. */
  datatype Role = Owner | Admin | Manager | Member | Viewer
  {
    function Code(): string
    {
      match this
        case Owner => "owner"
        case Admin => "admin"
        case Manager => "manager"
        case Member => "member"
        case Viewer => "viewer"
    }
  }

  function ParseRole(code: string): (r: Option<Role>)
    ensures r.Some? ==> r.value.Code() == code
    ensures r.None? ==> forall x: Role :: x.Code() != code
  {
    if code == "owner" then Some(Owner)
    else if code == "admin" then Some(Admin)
    else if code == "manager" then Some(Manager)
    else if code == "member" then Some(Member)
    else if code == "viewer" then Some(Viewer)
    else None
  }

  lemma RoleRoundTrip(r: Role)
    ensures ParseRole(r.Code()) == Some(r)
  {
  }

  const DefaultRole := Member

  datatype Membership = Membership(org: OrgId, user: UserId, role: Role)

  /** `unique_together = [("organization", "user")]`. */
  predicate UniqueMemberships(ms: seq<Membership>)
  {
    forall i, j :: 0 <= i < j < |ms| ==> (ms[i].org, ms[i].user) != (ms[j].org, ms[j].user)
  }

  /** Inserting a membership: a second one for the same organization and user violates the key. */
  function AddMembership(ms: seq<Membership>, org: OrgId, user: UserId, role: Option<Role>): (r: Result<seq<Membership>>)
    ensures r.Err? <==> exists k :: 0 <= k < |ms| && ms[k].org == org && ms[k].user == user
    ensures r.Ok? ==> r.value == ms + [Membership(org, user, if role.Some? then role.value else DefaultRole)]
    ensures r.Ok? && UniqueMemberships(ms) ==> UniqueMemberships(r.value)
  {
    if exists k :: 0 <= k < |ms| && ms[k].org == org && ms[k].user == user then
      Err(Integrity("unique: organization, user"))
    else
      Ok(ms + [Membership(org, user, if role.Some? then role.value else DefaultRole)])
  }
}
