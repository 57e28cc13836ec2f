/**
  The token module (modules/token.go): a balance transfer checked only
  against the sender's balance. No positivity, nonce or signature check is
  made.
*/
module Token {
  import opened Wrappers
  import opened Core
  import opened Ledger

  class TokenModule {
    var chain: Chain?

    constructor ()
      ensures chain == null
    {
      chain := null;
    }

    /** The module's name, always "token". */
    function Name(): string
    {
      "token"
    }

    /** Init stores the chain and does nothing else. */
    method Init(c: Chain)
      modifies this
      ensures chain == c
    {
      chain := c;
    }

    /**
      Moves tx.amount from tx.from to tx.to when the sender's balance covers it;
      otherwise reports "insufficient funds" and changes nothing. None is Go's
      nil error.
    */
    method HandleTransaction(tx: Transaction) returns (err: Option<string>)
      requires chain != null
      modifies chain
      ensures BalanceOf(old(chain.state), tx.from) < tx.amount ==>
        err == Some("insufficient funds") && chain.state == old(chain.state)
      ensures BalanceOf(old(chain.state), tx.from) >= tx.amount ==>
        err == None && chain.state == Transfer(old(chain.state), tx.from, tx.to, tx.amount)
      ensures chain.blocks == old(chain.blocks) && chain.nonces == old(chain.nonces)
    {
      var balance := chain.GetBalance(tx.from);
      if balance < tx.amount {
        return Some("insufficient funds");
      }
      chain.state := chain.state[tx.from := BalanceOf(chain.state, tx.from) - tx.amount];
      chain.state := chain.state[tx.to := BalanceOf(chain.state, tx.to) + tx.amount];
      return None;
    }
  }
}
