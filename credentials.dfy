/** The credential store: the `user_tokens` table, reduced to its map semantics.
    `save_token` is an upsert (`INSERT ... ON CONFLICT DO UPDATE`) and `get_token`
    a primary-key lookup. Both key the table by `str(telegram_id)`. */
module Credentials {
  import opened Wrappers

  /** The decimal digits of a natural number, as Python's `str` writes them. */
  function NatToDecimal(n: nat): (s: string)
    ensures |s| >= 1
    ensures forall i :: 0 <= i < |s| ==> '0' <= s[i] <= '9'
    decreases n
  {
    var digit := ('0' as int + n % 10) as char;
    if n < 10 then [digit] else NatToDecimal(n / 10) + [digit]
  }

  /** `str(telegram_id)` for an integer Telegram id. */
  function IdString(id: int): (s: string)
    ensures s != ""
    ensures s[0] == '-' <==> id < 0
  {
    if id < 0 then "-" + NatToDecimal(-id) else NatToDecimal(id)
  }

  /** The number a string of decimal digits denotes, most significant digit first. */
  function DecimalValue(s: string): (n: nat)
    requires forall i :: 0 <= i < |s| ==> '0' <= s[i] <= '9'
    decreases |s|
  {
    if s == [] then 0
    else DecimalValue(s[..|s| - 1]) * 10 + (s[|s| - 1] as int - '0' as int)
  }

  /** `str` of a natural number reads back as that number. */
  lemma {:induction false} DecimalRoundTrip(n: nat)
    ensures DecimalValue(NatToDecimal(n)) == n
    decreases n
  {
    var s := NatToDecimal(n);
    if n >= 10 {
      DecimalRoundTrip(n / 10);
      assert s[..|s| - 1] == NatToDecimal(n / 10);
    }
  }

  /** Distinct Telegram ids give distinct keys, so no user's token is found
      under another user's id. */
  lemma {:induction false} IdStringInjective(a: int, b: int)
    requires IdString(a) == IdString(b)
    ensures a == b
  {
    if a < 0 {
      assert b < 0 by { assert IdString(b)[0] == IdString(a)[0] == '-'; }
      var da, db := NatToDecimal(-a), NatToDecimal(-b);
      assert IdString(a) == "-" + da && IdString(b) == "-" + db;
      assert da == ("-" + da)[1..] == ("-" + db)[1..] == db;
      DecimalRoundTrip(-a);
      DecimalRoundTrip(-b);
    } else {
      assert b >= 0 by { assert IdString(b)[0] == IdString(a)[0] != '-'; }
      assert NatToDecimal(a) == IdString(a) == IdString(b) == NatToDecimal(b);
      DecimalRoundTrip(a);
      DecimalRoundTrip(b);
    }
  }

  class CredentialStore {
    /** telegram_id -> access_token; one row per id (primary key). */
    var tokens: map<string, string>

    /** The table as `init_db` leaves it on a fresh database. */
    constructor ()
      ensures tokens == map[]
    {
      tokens := map[];
    }

    /** `save_token`: insert, or overwrite the token of an existing row. */
    method SaveToken(telegramId: string, accessToken: string)
      modifies this
      ensures Get(tokens, telegramId) == Some(accessToken)
      ensures forall k :: k != telegramId ==> Get(tokens, k) == old(Get(tokens, k))
      ensures tokens == old(tokens)[telegramId := accessToken]
    {
      tokens := tokens[telegramId := accessToken];
    }

    /** `get_token`: the stored token, or `None` for an id never saved. */
    method GetToken(telegramId: string) returns (token: Option<string>)
      ensures token.Some? <==> telegramId in tokens
      ensures token.Some? ==> token.value == tokens[telegramId]
    {
      if telegramId in tokens {
        token := Some(tokens[telegramId]);
      } else {
        token := None;
      }
    }
  }

  /** A client of the store: after two saves for one id, `get_token` finds the
      second token, while an id that was not written keeps what it had. */
  method SaveTwiceThenGet(store: CredentialStore, telegramId: string, first: string, second: string, other: string)
    returns (mine: Option<string>, theirs: Option<string>)
    requires other != telegramId
    modifies store
    ensures mine == Some(second)
    ensures theirs == old(Get(store.tokens, other))
  {
    store.SaveToken(telegramId, first);
    store.SaveToken(telegramId, second);
    mine := store.GetToken(telegramId);
    theirs := store.GetToken(other);
  }
}
