/** Token pinning: app id to token (auth.go). The caller stands for the random
    source, which issues a token or fails; `saved` says whether the write to disk
    succeeded. */
module Auth {
  import opened Runs

  type Tokens = map<string, string>

  /** Memory is overwritten before the write to disk is tried. */
  function Allocated(tokens: Tokens, appID: string, issued: Option<string>): Tokens {
    if issued.Some? then tokens[appID := issued.value] else tokens
  }

  function Rotated(tokens: Tokens, appID: string, issued: Option<string>): Tokens {
    if appID in tokens then Allocated(tokens, appID, issued) else tokens
  }

  class Store {
    var tokens: Tokens

    constructor (tokens: Tokens)
      ensures this.tokens == tokens
    {
      this.tokens := tokens;
    }

    method Token(appID: string) returns (token: string, ok: bool)
      ensures ok <==> appID in tokens
      ensures ok ==> token == tokens[appID]
    {
      ok := appID in tokens;
      token := if ok then tokens[appID] else "";
    }

    method Allocate(appID: string, issued: Option<string>, saved: bool) returns (token: Option<string>)
      modifies this
      ensures tokens == Allocated(old(tokens), appID, issued)
      ensures token == if saved then issued else None
    {
      if issued.None? {
        return None;
      }
      tokens := tokens[appID := issued.value];
      token := if saved then issued else None;
    }

    method Rotate(appID: string, issued: Option<string>, saved: bool) returns (token: Option<string>)
      modifies this
      ensures tokens == Rotated(old(tokens), appID, issued)
      ensures token == if appID in old(tokens) && saved then issued else None
    {
      if appID !in tokens || issued.None? {
        return None;
      }
      tokens := tokens[appID := issued.value];
      token := if saved then issued else None;
    }
  }
}
