/** The reply-on-error closures of linebot/app/error_handlers.go. Every handle*Error wrapper
    there is handleLineError with its own log lines, so one method stands for all of them. */
module ErrorHandlers {
  import opened Wrappers
  import T = Types
  import LB = LineBot
  import A = AppState

  /** handleLineError(...)(err, token): nothing is sent for a nil error, one default error
      reply for any other; the reply's own failure is only logged. */
  method HandleLineError(app: A.App, failed: bool, token: string)
    modifies app.bot
    ensures !failed ==> app.bot.trace == old(app.bot.trace)
    ensures failed ==> app.bot.trace == old(app.bot.trace) + [A.DefaultErrorReply(token)]
  {
    if failed {
      var _ := app.bot.SendDefaultErrorReply(token);
    }
  }

  /** handleSendPortfolioError: a NoPortfolioError is answered with the no-portfolio text for
      its skill (ChnString of a skill outside the enum panics); any other error falls back to
      handleLineError. */
  method HandleSendPortfolioError(app: A.App, err: Option<LB.PortfolioError>, token: string)
    returns (panicked: bool)
    modifies app.bot
    ensures panicked <==> err.Some? && err.value.NoPortfolioError? && T.SkillChnString(err.value.skill).None?
    ensures err.None? || panicked ==> app.bot.trace == old(app.bot.trace)
    ensures err == Some(LB.ReplyFailed) ==> app.bot.trace == old(app.bot.trace) + [A.DefaultErrorReply(token)]
    ensures err.Some? && err.value.NoPortfolioError? && !panicked ==>
      app.bot.trace == old(app.bot.trace) +
        [LB.Reply(token, LB.Text(LB.NoPortfolioText(T.SkillChnString(err.value.skill).value)))]
  {
    if err.Some? && err.value.NoPortfolioError? {
      if T.SkillChnString(err.value.skill).None? {
        return true;
      }
      var _ := app.bot.SendNoPortfolioReply(token, err.value.skill);
      return false;
    }
    panicked := false;
    HandleLineError(app, err.Some?, token);
  }
}
