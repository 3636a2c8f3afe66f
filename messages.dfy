/**
 * eracuni/messages.py: the e-mail and Telegram message buffers and their
 * common front, `Notifications`. The transports themselves (SMTP over SSL,
 * the Telegram HTTP API) are abstract: a send is recorded as an attempt in an
 * `Outbox`, and whether the transport raised is a parameter.
 */
module Messages {
  import opened Data

  /** The text a buffer holds after `lines` were added: each line followed by a newline. */
  function Joined(lines: seq<string>): string {
    if lines == [] then "" else Joined(lines[..|lines| - 1]) + lines[|lines| - 1] + "\n"
  }

  /** Joining distributes over concatenation: the buffer keeps every line, in order. */
  lemma {:induction false} JoinedAppend(a: seq<string>, b: seq<string>)
    ensures Joined(a + b) == Joined(a) + Joined(b)
    decreases |b|
  {
    if b == [] {
      assert a + b == a;
    } else {
      var b' := b[..|b| - 1];
      assert (a + b)[..|a + b| - 1] == a + b';
      JoinedAppend(a, b');
    }
  }

  /** A buffer is empty exactly when no line was added, even an empty one. */
  lemma JoinedEmpty(lines: seq<string>)
    ensures Joined(lines) == "" <==> lines == []
  {
    if lines != [] {
      assert Joined(lines)[|Joined(lines)| - 1] == '\n';
    }
  }

  /** One use of a transport: an SMTP session or a Telegram request, with the text it carries. */
  datatype Attempt = EmailAttempt(body: string) | ChatAttempt(body: string)

  /** The transports' view of the world: every attempt made, in order. */
  class Outbox {
    var attempts: seq<Attempt>
  }

  /** A buffer is sent only when its transport is enabled and something was added. */
  predicate Due(enabled: bool, body: string) {
    enabled && body != ""
  }

  /**
   * `Notifications.send()` on buffers holding `Joined(lines)`: the attempts,
   * in order, and whether an exception escaped. The e-mail goes first; an
   * SMTP connection that cannot be opened raises out of `Mail.send` (only
   * login and sending are guarded) and so the Telegram send never happens. A
   * failed Telegram request raises too. Errors at login or while sending the
   * mail are caught.
   */
  function Flush(emailOn: bool, telegramOn: bool, lines: seq<string>, smtpUp: bool, httpUp: bool): (r: (seq<Attempt>, bool))
    ensures |r.0| <= 2 && (r.1 ==> r.0 != [])
    ensures forall a :: a in r.0 ==> a.body == Joined(lines)
  {
    var body := Joined(lines);
    var mail := if Due(emailOn, body) then [EmailAttempt(body)] else [];
    if Due(emailOn, body) && !smtpUp then (mail, true)
    else
      var chat := if Due(telegramOn, body) then [ChatAttempt(body)] else [];
      (mail + chat, Due(telegramOn, body) && !httpUp)
  }

  /** With nothing added, `send` contacts no transport and cannot fail. */
  lemma FlushNothingAdded(emailOn: bool, telegramOn: bool, smtpUp: bool, httpUp: bool)
    ensures Flush(emailOn, telegramOn, [], smtpUp, httpUp) == ([], false)
  {
    assert Joined([]) == "";
    var nothing: seq<Attempt> := [];
    assert nothing + nothing == nothing;
  }

  /**
   * With something added and both transports working, each enabled transport
   * gets the whole buffer once, the e-mail first.
   */
  lemma {:induction false} FlushSendsAll(emailOn: bool, telegramOn: bool, lines: seq<string>)
    requires lines != []
    ensures Flush(emailOn, telegramOn, lines, true, true).1 == false
    ensures Flush(emailOn, telegramOn, lines, true, true).0
      == (if emailOn then [EmailAttempt(Joined(lines))] else []) + (if telegramOn then [ChatAttempt(Joined(lines))] else [])
  {
    JoinedEmpty(lines);
  }

  /**
   * The transports are NOT isolated: when the SMTP connection cannot be
   * opened, the exception leaves `send` and Telegram is never tried.
   */
  lemma {:induction false} MailFailureSkipsTelegram(telegramOn: bool, lines: seq<string>, httpUp: bool)
    requires lines != []
    ensures Flush(true, telegramOn, lines, false, httpUp) == ([EmailAttempt(Joined(lines))], true)
  {
    JoinedEmpty(lines);
  }

  /** `Mail`: the e-mail buffer. */
  class Mail {
    const enabled: bool
    var body: string

    constructor (config: Config)
      ensures enabled == config.emailEnabled && body == ""
    {
      enabled := config.emailEnabled;
      body := "";
    }

    /** `add(text)`: appends the text and a newline. */
    method Add(text: string)
      modifies this
      ensures body == old(body) + text + "\n"
    {
      body := body + text + "\n";
    }

    /**
     * `send()`: one SMTP session with the whole buffer when enabled and not
     * empty; `raised` when the connection could not be opened. The buffer is
     * left as it is.
     */
    method Send(outbox: Outbox, smtpUp: bool) returns (raised: bool)
      modifies outbox
      ensures outbox.attempts == old(outbox.attempts) + if Due(enabled, body) then [EmailAttempt(body)] else []
      ensures raised == (Due(enabled, body) && !smtpUp)
    {
      raised := false;
      if enabled && body != "" {
        var message := body;
        outbox.attempts := outbox.attempts + [EmailAttempt(message)];
        raised := !smtpUp;
      }
    }
  }

  /** `Telegram`: the Telegram buffer. */
  class Telegram {
    const enabled: bool
    var body: string

    constructor (config: Config)
      ensures enabled == config.telegramEnabled && body == ""
    {
      enabled := config.telegramEnabled;
      body := "";
    }

    /** `add(text)`: appends the text and a newline. */
    method Add(text: string)
      modifies this
      ensures body == old(body) + text + "\n"
    {
      body := body + text + "\n";
    }

    /**
     * `send()`: one request to the bot API with the whole buffer when enabled
     * and not empty; `raised` when the request failed. The buffer is left as it is.
     */
    method Send(outbox: Outbox, httpUp: bool) returns (raised: bool)
      modifies outbox
      ensures outbox.attempts == old(outbox.attempts) + if Due(enabled, body) then [ChatAttempt(body)] else []
      ensures raised == (Due(enabled, body) && !httpUp)
    {
      raised := false;
      if enabled && body != "" {
        var message := body;
        outbox.attempts := outbox.attempts + [ChatAttempt(message)];
        raised := !httpUp;
      }
    }
  }

  /** `Notifications`: every line goes to both buffers, which therefore always hold the same text. */
  class Notifications {
    const email: Mail
    const telegram: Telegram
    ghost var lines: seq<string>

    ghost predicate Valid()
      reads this, email, telegram
    {
      email.body == Joined(lines) && telegram.body == Joined(lines)
    }

    constructor (config: Config)
      ensures Valid() && lines == [] && fresh(email) && fresh(telegram)
      ensures email.enabled == config.emailEnabled && telegram.enabled == config.telegramEnabled
    {
      email := new Mail(config);
      telegram := new Telegram(config);
      lines := [];
    }

    /** `add(text)`: the same line to the e-mail and to the Telegram buffer. */
    method Add(text: string)
      requires Valid()
      modifies this, email, telegram
      ensures Valid() && lines == old(lines) + [text]
    {
      email.Add(text);
      telegram.Add(text);
      lines := lines + [text];
    }

    /** `send()`: the e-mail, then Telegram; the buffers are not cleared. */
    method Send(outbox: Outbox, smtpUp: bool, httpUp: bool) returns (raised: bool)
      requires Valid()
      modifies outbox
      ensures var (sent, r) := Flush(email.enabled, telegram.enabled, lines, smtpUp, httpUp);
        outbox.attempts == old(outbox.attempts) + sent && raised == r
    {
      raised := email.Send(outbox, smtpUp);
      if raised {
        return;
      }
      raised := telegram.Send(outbox, httpUp);
    }
  }
}
