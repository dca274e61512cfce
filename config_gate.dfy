/** `check_tokens`: the start-up gate that refuses to run without the three
    credentials. The process exit becomes a `Missing` result naming the
    first absent variable. */
module ConfigGate {
  import opened PyValues

  const PracticumToken := "PRACTICUM_TOKEN"
  const TelegramToken := "TELEGRAM_TOKEN"
  const TelegramChatId := "TELEGRAM_CHAT_ID"

  datatype TokenCheck = TokensPresent | Missing(key: string)

  /** The `env_variables` dict, in its insertion order: `os.getenv` gives
      None for an unset variable. */
  function EnvVariables(practicum: Option<string>, telegram: Option<string>, chatId: Option<string>)
    : seq<(string, Option<string>)>
  {
    [(PracticumToken, practicum), (TelegramToken, telegram), (TelegramChatId, chatId)]
  }

  /** The first entry whose value is None, scanning in order. */
  function FirstMissing(env: seq<(string, Option<string>)>): (r: TokenCheck)
    ensures r == TokensPresent <==> forall k :: 0 <= k < |env| ==> env[k].1.Some?
    ensures r.Missing? ==>
      exists k :: 0 <= k < |env| && env[k].0 == r.key && env[k].1 == None &&
        forall j :: 0 <= j < k ==> env[j].1.Some?
  {
    if env == [] then TokensPresent
    else if env[0].1 == None then Missing(env[0].0)
    else
      var rest := FirstMissing(env[1..]);
      assert forall k :: 1 <= k < |env| ==> env[k] == env[1..][k - 1];
      rest
  }

  /** The scan of `check_tokens`: stops at the first variable that is None. */
  method CheckTokens(practicum: Option<string>, telegram: Option<string>, chatId: Option<string>)
    returns (r: TokenCheck)
    ensures r == FirstMissing(EnvVariables(practicum, telegram, chatId))
  {
    var env := EnvVariables(practicum, telegram, chatId);
    var i := 0;
    while i < |env|
      invariant 0 <= i <= |env|
      invariant FirstMissing(env) == FirstMissing(env[i..])
    {
      var (key, value) := env[i];
      if value == None {
        return Missing(key);
      }
      assert env[i..][1..] == env[i + 1..];
      i := i + 1;
    }
    r := TokensPresent;
  }

  /** The gate passes iff all three variables are set (an empty string is
      set), and otherwise names the first unset one in the order
      PRACTICUM_TOKEN, TELEGRAM_TOKEN, TELEGRAM_CHAT_ID. */
  lemma CheckTokensReportsFirstMissing(practicum: Option<string>, telegram: Option<string>, chatId: Option<string>)
    ensures var r := FirstMissing(EnvVariables(practicum, telegram, chatId));
      (r == TokensPresent <==> practicum.Some? && telegram.Some? && chatId.Some?) &&
      (r == Missing(PracticumToken) <==> practicum == None) &&
      (r == Missing(TelegramToken) <==> practicum.Some? && telegram == None) &&
      (r == Missing(TelegramChatId) <==> practicum.Some? && telegram.Some? && chatId == None)
  {
    var env := EnvVariables(practicum, telegram, chatId);
    assert env[1..][1..] == [(TelegramChatId, chatId)];
    assert env[1..][1..][1..] == [];
    if FirstMissing(env) == TokensPresent {
      assert env[0].1.Some? && env[1].1.Some? && env[2].1.Some?;
    }
  }
}
