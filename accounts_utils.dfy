// Account e-mail helpers: the front-end links for e-mail verification and
// password reset, the token tables behind them, and the send helpers'
// early returns. The random token, the clock and the mail transport are
// parameters.

module AccountTokens {
  import opened Common
  import opened Text

  /** A timestamp, as an opaque ordered number. */
  type Time = int

  datatype User = User(id: UserId, email: string, isActive: bool)

  /** One row of `EmailVerificationToken` or `PasswordResetToken`. */
  datatype Token = Token(user: UserId, token: string, isUsed: bool, usedAt: Option<Time>)

  const DefaultFrontendBase := "http://localhost:5173"
  const VerifyPath := "/verify-email?token="
  const ResetPath := "/reset-password?token="

  /** `getattr(settings, "FRONTEND_BASE_URL", "http://localhost:5173")`. */
  function FrontendBase(setting: Option<string>): string
  {
    if setting.Some? then setting.value else DefaultFrontendBase
  }

  /**
   * The link `base.rstrip('/') + path + token`: it starts with the base less
   * its trailing slashes, goes on with the path, and ends with the token.
   */
  function FrontendLink(setting: Option<string>, path: string, token: string): (url: string)
    ensures var root := StripRightChar(FrontendBase(setting), '/');
      |url| == |root| + |path| + |token| &&
      url[..|root|] == FrontendBase(setting)[..|root|] &&
      url[|root|..|root| + |path|] == path &&
      url[|root| + |path|..] == token
  {
    StripRightChar(FrontendBase(setting), '/') + path + token
  }

  /** `build_verification_url`. */
  function VerificationUrl(setting: Option<string>, token: string): string
  {
    FrontendLink(setting, VerifyPath, token)
  }

  /** `build_password_reset_url`. */
  function PasswordResetUrl(setting: Option<string>, token: string): string
  {
    FrontendLink(setting, ResetPath, token)
  }

  /** With no setting, links point at the local front end. */
  lemma DefaultVerificationUrl(token: string)
    ensures VerificationUrl(None, token) == "http://localhost:5173/verify-email?token=" + token
  {
    var b := DefaultFrontendBase;
    assert b[|b| - 1] == '3';
    StripRightCharAdded(b, '/');
    assert DefaultFrontendBase + VerifyPath == "http://localhost:5173/verify-email?token=";
  }

  /** A trailing slash on the configured base does not double the slash in the link. */
  lemma TrailingSlashIgnored(base: string, path: string, token: string)
    requires base == [] || base[|base| - 1] != '/'
    ensures FrontendLink(Some(base + "/"), path, token) == FrontendLink(Some(base), path, token)
    ensures FrontendLink(Some(base), path, token) == base + path + token
  {
    StripRightCharAdded(base, '/');
  }

  /** The token can be read back from the end of the link, and different tokens give different links. */
  lemma LinkDeterminesToken(setting: Option<string>, path: string, t1: string, t2: string)
    requires FrontendLink(setting, path, t1) == FrontendLink(setting, path, t2)
    ensures t1 == t2
  {
    var root := StripRightChar(FrontendBase(setting), '/');
    assert t1 == FrontendLink(setting, path, t1)[|root| + |path|..];
  }

  /** A verification link is never a reset link, whatever the tokens. */
  lemma VerificationIsNotReset(setting: Option<string>, t1: string, t2: string)
    ensures VerificationUrl(setting, t1) != PasswordResetUrl(setting, t2)
  {
    var root := StripRightChar(FrontendBase(setting), '/');
    var v := VerificationUrl(setting, t1);
    var p := PasswordResetUrl(setting, t2);
    assert v[|root| + 1] == 'v';
    assert p[|root| + 1] == 'r';
  }

  /** True when the token is an unused token of that user. */
  predicate Live(t: Token, user: UserId)
  {
    t.user == user && !t.isUsed
  }

  /** `filter(user=user, is_used=False).update(is_used=True, used_at=now)`. */
  function Invalidate(ts: seq<Token>, user: UserId, now: Time): (r: seq<Token>)
    ensures |r| == |ts|
    ensures forall i :: 0 <= i < |ts| ==>
      r[i] == if Live(ts[i], user) then ts[i].(isUsed := true, usedAt := Some(now)) else ts[i]
  {
    if ts == [] then []
    else
      var t := ts[|ts| - 1];
      Invalidate(ts[..|ts| - 1], user, now) + [if Live(t, user) then t.(isUsed := true, usedAt := Some(now)) else t]
  }

  /** The table after a token is created: the old live tokens retired, the new one appended. */
  function AfterCreate(ts: seq<Token>, user: UserId, token: string, now: Time): seq<Token>
  {
    Invalidate(ts, user, now) + [Token(user, token, false, None)]
  }

  /** After creation, the new token is the user's only live one, and every other user's tokens are as they were. */
  lemma SingleLiveToken(ts: seq<Token>, user: UserId, token: string, now: Time)
    ensures var r := AfterCreate(ts, user, token, now);
      |r| == |ts| + 1 && r[|ts|] == Token(user, token, false, None) &&
      (forall i :: 0 <= i < |r| && Live(r[i], user) ==> i == |ts|) &&
      (forall i :: 0 <= i < |ts| && ts[i].user != user ==> r[i] == ts[i])
  {
  }

  /** `bool(send_mail(...))`, with a raised exception (`None`) read as failure. */
  function Delivered(sent: Option<nat>): bool
  {
    sent.Some? && sent.value > 0
  }

  /** `getattr(settings, "DEFAULT_FROM_EMAIL", "no-reply@preator.es")`. */
  function FromEmail(setting: Option<string>): string
  {
    if setting.Some? then setting.value else "no-reply@preator.es"
  }

  /** The arguments handed to `send_mail`. */
  datatype Mail = Mail(subject: string, body: string, fromEmail: string, recipients: seq<string>)

  /** What a notification helper does: the mail it hands to the transport, if any, and what it returns. */
  datatype Notice = Notice(mail: Option<Mail>, ok: bool)

  const PasswordChangedSubject := "Tu contraseña de PREATOR se ha cambiado"
  const PasswordChangedBody :=
    "Hola,\n\n"
    + "Te informamos de que la contraseña de tu cuenta en PREATOR se ha cambiado.\n\n"
    + "Si has sido tú, no tienes que hacer nada más.\n"
    + "Si NO has sido tú, cambia la contraseña de inmediato y contacta con tu gestor o con soporte.\n\n"
    + "Un saludo,\n"
    + "El equipo de PREATOR"

  const EmailChangedSubject := "Tu email de acceso a PREATOR ha cambiado"
  const EmailChangedIntro :=
    "Hola,\n\n"
    + "Te informamos de que el email asociado a tu cuenta de PREATOR se ha cambiado.\n\n"
    + "Email anterior: "
  const EmailChangedMiddle := "\nNuevo email: "
  const EmailChangedOutro :=
    "\n\n"
    + "Si no reconoces este cambio, contacta con soporte lo antes posible.\n\n"
    + "Un saludo,\n"
    + "El equipo de PREATOR"

  /** The message of the e-mail-change notice, with both addresses filled in. */
  function EmailChangedBody(oldEmail: string, newEmail: string): string
  {
    EmailChangedIntro + oldEmail + EmailChangedMiddle + newEmail + EmailChangedOutro
  }

  /**
   * `send_password_changed_notification`: a user without an address gets no
   * mail and `False`; otherwise the fixed notice goes to the user's address
   * alone, and the result is whether the transport reported a delivery.
   */
  function NotifyPasswordChanged(user: User, fromSetting: Option<string>, sent: Option<nat>): (n: Notice)
    ensures n.mail.None? <==> user.email == []
    ensures n.mail.Some? ==>
      n.mail.value.recipients == [user.email] && n.mail.value.fromEmail == FromEmail(fromSetting)
    ensures n.ok <==> n.mail.Some? && sent.Some? && sent.value > 0
  {
    if user.email == [] then Notice(None, false)
    else Notice(Some(Mail(PasswordChangedSubject, PasswordChangedBody, FromEmail(fromSetting), [user.email])),
                Delivered(sent))
  }

  /**
   * `send_email_changed_notification`: without an old address there is no
   * mail; otherwise the notice goes to the old address alone and its message
   * names both the old and the new address.
   */
  function NotifyEmailChanged(oldEmail: string, newEmail: string, fromSetting: Option<string>, sent: Option<nat>)
    : (n: Notice)
    ensures n.mail.None? <==> oldEmail == []
    ensures n.mail.Some? ==>
      && n.mail.value.recipients == [oldEmail]
      && n.mail.value.fromEmail == FromEmail(fromSetting)
      && IsSubstring(oldEmail, n.mail.value.body)
      && IsSubstring(newEmail, n.mail.value.body)
    ensures n.ok <==> n.mail.Some? && sent.Some? && sent.value > 0
  {
    if oldEmail == [] then Notice(None, false)
    else
      var body := EmailChangedBody(oldEmail, newEmail);
      SubstringOfConcat(EmailChangedIntro, oldEmail, EmailChangedMiddle + newEmail + EmailChangedOutro);
      assert body == EmailChangedIntro + oldEmail + (EmailChangedMiddle + newEmail + EmailChangedOutro);
      SubstringOfConcat(EmailChangedIntro + oldEmail + EmailChangedMiddle, newEmail, EmailChangedOutro);
      Notice(Some(Mail(EmailChangedSubject, body, FromEmail(fromSetting), [oldEmail])), Delivered(sent))
  }

  /** For the same old address, different new addresses give different messages. */
  lemma EmailChangedBodyDeterminesNew(oldEmail: string, new1: string, new2: string)
    requires EmailChangedBody(oldEmail, new1) == EmailChangedBody(oldEmail, new2)
    ensures new1 == new2
  {
    var pre := EmailChangedIntro + oldEmail + EmailChangedMiddle;
    var b1 := EmailChangedBody(oldEmail, new1);
    var b2 := EmailChangedBody(oldEmail, new2);
    assert b1 == pre + new1 + EmailChangedOutro;
    assert b2 == pre + new2 + EmailChangedOutro;
    assert |new1| == |new2|;
    assert new1 == b1[|pre|..|pre| + |new1|];
    assert new2 == b2[|pre|..|pre| + |new2|];
  }

  /** For the same new address, different old addresses give different messages. */
  lemma EmailChangedBodyDeterminesOld(old1: string, old2: string, newEmail: string)
    requires EmailChangedBody(old1, newEmail) == EmailChangedBody(old2, newEmail)
    ensures old1 == old2
  {
    var post := EmailChangedMiddle + newEmail + EmailChangedOutro;
    var b1 := EmailChangedBody(old1, newEmail);
    var b2 := EmailChangedBody(old2, newEmail);
    assert b1 == EmailChangedIntro + old1 + post;
    assert b2 == EmailChangedIntro + old2 + post;
    assert |old1| == |old2|;
    assert old1 == b1[|EmailChangedIntro|..|EmailChangedIntro| + |old1|];
    assert old2 == b2[|EmailChangedIntro|..|EmailChangedIntro| + |old2|];
  }

  /** The two token tables, updated in place. */
  class TokenTables {
    var verification: seq<Token>
    var reset: seq<Token>

    constructor ()
      ensures verification == [] && reset == []
    {
      verification := [];
      reset := [];
    }

    /** `create_email_verification_token`. */
    method CreateVerificationToken(user: UserId, token: string, now: Time) returns (t: Token)
      modifies this
      ensures t == Token(user, token, false, None)
      ensures verification == AfterCreate(old(verification), user, token, now)
      ensures reset == old(reset)
    {
      verification := Invalidate(verification, user, now);
      t := Token(user, token, false, None);
      verification := verification + [t];
    }

    /** `create_password_reset_token`. */
    method CreatePasswordResetToken(user: UserId, token: string, now: Time) returns (t: Token)
      modifies this
      ensures t == Token(user, token, false, None)
      ensures reset == AfterCreate(old(reset), user, token, now)
      ensures verification == old(verification)
    {
      reset := Invalidate(reset, user, now);
      t := Token(user, token, false, None);
      reset := reset + [t];
    }

    /**
     * `send_verification_email`: a user without an address gets no token and
     * `false`; otherwise a fresh token is created and the mail carries its
     * link. The result is whether the transport reported a delivery.
     */
    method SendVerificationEmail(user: User, setting: Option<string>, token: string, now: Time, sent: Option<nat>)
      returns (ok: bool, link: Option<string>)
      modifies this
      ensures user.email == [] ==> !ok && link == None && verification == old(verification)
      ensures user.email != [] ==>
        (ok == Delivered(sent) && link == Some(VerificationUrl(setting, token)) &&
         verification == AfterCreate(old(verification), user.id, token, now))
      ensures reset == old(reset)
    {
      if user.email == [] {
        return false, None;
      }
      var t := CreateVerificationToken(user.id, token, now);
      link := Some(VerificationUrl(setting, t.token));
      ok := Delivered(sent);
    }

    /** `send_password_reset_email`: also refused, with no token, for an inactive user. */
    method SendPasswordResetEmail(user: User, setting: Option<string>, token: string, now: Time, sent: Option<nat>)
      returns (ok: bool, link: Option<string>)
      modifies this
      ensures (user.email == [] || !user.isActive) ==> !ok && link == None && reset == old(reset)
      ensures user.email != [] && user.isActive ==>
        (ok == Delivered(sent) && link == Some(PasswordResetUrl(setting, token)) &&
         reset == AfterCreate(old(reset), user.id, token, now))
      ensures verification == old(verification)
    {
      if user.email == [] || !user.isActive {
        return false, None;
      }
      var t := CreatePasswordResetToken(user.id, token, now);
      link := Some(PasswordResetUrl(setting, t.token));
      ok := Delivered(sent);
    }
  }
}
