/** The bot's dialog state machine: the owner check, the add-purchase flow
    (amount, then price), the moonshot flow (target price), the two
    one-shot reports (progress, history) and the routing of one incoming
    text message to the handler that the conversation wiring selects. */
module Dialog {
  import opened Wrappers
  import opened Ledger
  import opened Portfolio

  /** Where the owner's conversation stands: idle, or waiting for the
      amount, the price, or the moonshot target price. */
  datatype DialogState = Idle | Amount | Price | MoonshotPrice

  /** The result of the history query as the bot shows it. */
  datatype HistoryView = NoPurchases | Listing(rows: seq<Purchase>)

  /** What a handler sends back (formatting and keyboards left aside). */
  datatype Reply =
    | Denied                    // the fixed "owner only" message
    | Ignored                   // no handler takes the message
    | AskAmount
    | AskPrice
    | AskTargetPrice
    | InvalidNumber             // "enter a valid number", the step is repeated
    | PurchaseAdded(purchase: Purchase)
    | MoonshotReport(targetPrice: real, projection: Projection)
    | ProgressReport(snapshot: Snapshot)
    | HistoryReport(view: HistoryView)

  const AddPurchaseLabel: string := "➕ Добавить покупку"
  const ProgressLabel: string := "\U{1F4CA} Прогресс"
  const HistoryLabel: string := "\U{1F4C5} История"
  const MoonshotLabel: string := "\U{1F680} Moonshot"

  /** The access guard: only the configured owner id is served. */
  predicate IsUserAllowed(userId: int, owner: int) {
    userId == owner
  }

  /** A menu button's `^label$` pattern; Python's `$` also matches just
      before a final newline. */
  predicate MatchesLabel(input: string, button: string) {
    input == button || input == button + "\n"
  }

  predicate IsCommandChar(c: char) {
    ('a' <= c <= 'z') || ('A' <= c <= 'Z') || ('0' <= c <= '9') || c == '_'
  }

  /** A message that opens with a bot command such as `/start`; the flow
      steps accept text that is not a command. */
  predicate IsCommand(input: string) {
    |input| >= 2 && input[0] == '/' && IsCommandChar(input[1])
  }

  class Bot {
    /** The owner id read from the environment at start-up. */
    const owner: int
    /** Python's `float()` on message text: None where it raises ValueError. */
    const parse: string -> Option<real>

    /** The owner's conversation state. */
    var state: DialogState
    /** `user_data["amount"]`: the amount entered, kept after the flow ends. */
    var amount: Option<real>
    /** The `purchases` table, oldest row first. */
    var ledger: seq<Purchase>

    ghost predicate Valid()
      reads this
    {
      && WellFormed(ledger)
      && (state == Price ==> amount.Some?)
    }

    /** Start-up: `stored` is what the database file already holds. */
    constructor (owner: int, parse: string -> Option<real>, stored: seq<Purchase>)
      requires WellFormed(stored)
      ensures Valid()
      ensures this.owner == owner && this.parse == parse
      ensures state == Idle && amount == None && ledger == stored
    {
      this.owner := owner;
      this.parse := parse;
      state := Idle;
      amount := None;
      ledger := stored;
    }

    /** Entry of the add-purchase flow. */
    method AddPurchaseStart(userId: int) returns (reply: Reply)
      requires Valid()
      modifies this`state
      ensures Valid()
      ensures !IsUserAllowed(userId, owner) ==> reply == Denied && state == old(state)
      ensures IsUserAllowed(userId, owner) ==> reply == AskAmount && state == Amount
    {
      if !IsUserAllowed(userId, owner) {
        return Denied;
      }
      state := Amount;
      reply := AskAmount;
    }

    /** The amount step: a number is stored and the price is asked for;
        anything else repeats the step. */
    method AddPurchaseAmount(userId: int, text: string) returns (reply: Reply)
      requires Valid() && state == Amount
      modifies this`state, this`amount
      ensures Valid()
      ensures !IsUserAllowed(userId, owner) ==> reply == Denied && state == old(state) && amount == old(amount)
      ensures IsUserAllowed(userId, owner) && parse(text).None? ==>
        reply == InvalidNumber && state == Amount && amount == old(amount)
      ensures IsUserAllowed(userId, owner) && parse(text).Some? ==>
        reply == AskPrice && state == Price && amount == parse(text)
    {
      if !IsUserAllowed(userId, owner) {
        return Denied;
      }
      match parse(text)
      case None =>
        reply := InvalidNumber;
      case Some(x) =>
        amount := Some(x);
        state := Price;
        reply := AskPrice;
    }

    /** The price step: a number completes the purchase, appending exactly
        one row and ending the flow; anything else repeats the step and
        writes nothing. */
    method AddPurchasePrice(userId: int, text: string, now: Timestamp) returns (reply: Reply)
      requires Valid() && state == Price
      modifies this`state, this`ledger
      ensures Valid()
      ensures !IsUserAllowed(userId, owner) ==> reply == Denied && state == old(state) && ledger == old(ledger)
      ensures IsUserAllowed(userId, owner) && parse(text).None? ==>
        reply == InvalidNumber && state == Price && ledger == old(ledger)
      ensures IsUserAllowed(userId, owner) && parse(text).Some? ==>
        && reply == PurchaseAdded(NewPurchase(amount.value, parse(text).value, now))
        && ledger == old(ledger) + [reply.purchase]
        && state == Idle
    {
      if !IsUserAllowed(userId, owner) {
        return Denied;
      }
      match parse(text)
      case None =>
        reply := InvalidNumber;
      case Some(price) =>
        var p := NewPurchase(amount.value, price, now);
        ledger := ledger + [p];
        state := Idle;
        reply := PurchaseAdded(p);
    }

    /** Entry of the moonshot flow. */
    method MoonshotStart(userId: int) returns (reply: Reply)
      requires Valid()
      modifies this`state
      ensures Valid()
      ensures !IsUserAllowed(userId, owner) ==> reply == Denied && state == old(state)
      ensures IsUserAllowed(userId, owner) ==> reply == AskTargetPrice && state == MoonshotPrice
    {
      if !IsUserAllowed(userId, owner) {
        return Denied;
      }
      state := MoonshotPrice;
      reply := AskTargetPrice;
    }

    /** The target-price step: a number yields the projection and ends the
        flow; anything else repeats the step, the price not being needed. */
    method MoonshotTarget(userId: int, text: string, btcPrice: real) returns (reply: Reply)
      requires Valid() && state == MoonshotPrice
      modifies this`state
      ensures Valid()
      ensures !IsUserAllowed(userId, owner) ==> reply == Denied && state == old(state)
      ensures IsUserAllowed(userId, owner) && parse(text).None? ==>
        reply == InvalidNumber && state == MoonshotPrice
      ensures IsUserAllowed(userId, owner) && parse(text).Some? ==>
        && reply == MoonshotReport(parse(text).value, Moonshot(ledger, parse(text).value, btcPrice))
        && state == Idle
    {
      if !IsUserAllowed(userId, owner) {
        return Denied;
      }
      match parse(text)
      case None =>
        reply := InvalidNumber;
      case Some(target) =>
        state := Idle;
        reply := MoonshotReport(target, Moonshot(ledger, target, btcPrice));
    }

    /** The progress report: the snapshot of the whole ledger at the given
        current price. */
    method ShowProgress(userId: int, btcPrice: real) returns (reply: Reply)
      ensures !IsUserAllowed(userId, owner) ==> reply == Denied
      ensures IsUserAllowed(userId, owner) ==> reply == ProgressReport(Progress(ledger, btcPrice))
    {
      if !IsUserAllowed(userId, owner) {
        return Denied;
      }
      reply := ProgressReport(Progress(ledger, btcPrice));
    }

    /** The history listing: every purchase, most recent first, or the
        "no records" message exactly when there are none. */
    method ShowHistory(userId: int) returns (reply: Reply)
      ensures !IsUserAllowed(userId, owner) ==> reply == Denied
      ensures IsUserAllowed(userId, owner) ==> reply.HistoryReport?
      ensures IsUserAllowed(userId, owner) ==> (reply.view.NoPurchases? <==> ledger == [])
      ensures IsUserAllowed(userId, owner) && reply.view.Listing? ==>
        && DateDescending(reply.view.rows)
        && multiset(reply.view.rows) == multiset(ledger)
    {
      if !IsUserAllowed(userId, owner) {
        return Denied;
      }
      var purchases := ByDateDescending(ledger);
      assert |purchases| == |multiset(ledger)| == |ledger|;
      if purchases == [] {
        return HistoryReport(NoPurchases);
      }
      var entries: seq<Purchase> := [];
      for i := 0 to |purchases|
        invariant entries == purchases[..i]
      {
        entries := entries + [purchases[i]];
      }
      assert entries == purchases;
      reply := HistoryReport(Listing(entries));
    }

    /** One incoming text message from `userId`. A non-owner's own
        conversations never leave the idle state, so only the entry points
        and the report buttons reach a handler for them, which denies. */
    method Step(userId: int, input: string, btcPrice: real, now: Timestamp) returns (reply: Reply)
      requires Valid()
      modifies this`state, this`amount, this`ledger
      ensures Valid()
      // the guard: a non-owner changes nothing
      ensures !IsUserAllowed(userId, owner) ==>
        && state == old(state) && amount == old(amount) && ledger == old(ledger)
        && reply == (if MatchesLabel(input, AddPurchaseLabel) || MatchesLabel(input, MoonshotLabel)
                        || MatchesLabel(input, ProgressLabel) || MatchesLabel(input, HistoryLabel)
                     then Denied else Ignored)
      // the ledger only grows, by one well-formed row, when a purchase completes
      ensures ledger == old(ledger) || (old(state) == Price && reply.PurchaseAdded? && ledger == old(ledger) + [reply.purchase])
      // idle: the menu buttons
      ensures IsUserAllowed(userId, owner) && old(state) == Idle ==>
        && amount == old(amount) && ledger == old(ledger)
        && (if MatchesLabel(input, AddPurchaseLabel) then state == Amount && reply == AskAmount
            else if MatchesLabel(input, MoonshotLabel) then state == MoonshotPrice && reply == AskTargetPrice
            else if MatchesLabel(input, ProgressLabel) then state == Idle && reply == ProgressReport(Progress(ledger, btcPrice))
            else if MatchesLabel(input, HistoryLabel) then
              && state == Idle && reply.HistoryReport?
              && (reply.view.NoPurchases? <==> ledger == [])
              && (reply.view.Listing? ==> DateDescending(reply.view.rows) && multiset(reply.view.rows) == multiset(ledger))
            else state == Idle && reply == Ignored)
      // in a flow, a command is not an answer to the question asked
      ensures IsUserAllowed(userId, owner) && old(state) != Idle && IsCommand(input) ==>
        state == old(state) && amount == old(amount) && ledger == old(ledger) && reply == Ignored
      // in a flow, text that does not parse repeats the step and changes nothing
      ensures IsUserAllowed(userId, owner) && old(state) != Idle && !IsCommand(input) && parse(input).None? ==>
        state == old(state) && amount == old(amount) && ledger == old(ledger) && reply == InvalidNumber
      // the steps that accept a number
      ensures IsUserAllowed(userId, owner) && old(state) == Amount && !IsCommand(input) && parse(input).Some? ==>
        state == Price && amount == parse(input) && ledger == old(ledger) && reply == AskPrice
      ensures IsUserAllowed(userId, owner) && old(state) == Price && !IsCommand(input) && parse(input).Some? ==>
        && state == Idle && amount == old(amount)
        && reply == PurchaseAdded(NewPurchase(old(amount).value, parse(input).value, now))
        && ledger == old(ledger) + [reply.purchase]
      ensures IsUserAllowed(userId, owner) && old(state) == MoonshotPrice && !IsCommand(input) && parse(input).Some? ==>
        && state == Idle && amount == old(amount) && ledger == old(ledger)
        && reply == MoonshotReport(parse(input).value, Moonshot(ledger, parse(input).value, btcPrice))
    {
      if !IsUserAllowed(userId, owner) || state == Idle {
        if MatchesLabel(input, AddPurchaseLabel) {
          reply := AddPurchaseStart(userId);
        } else if MatchesLabel(input, MoonshotLabel) {
          reply := MoonshotStart(userId);
        } else if MatchesLabel(input, ProgressLabel) {
          reply := ShowProgress(userId, btcPrice);
        } else if MatchesLabel(input, HistoryLabel) {
          reply := ShowHistory(userId);
        } else {
          reply := Ignored;
        }
      } else if IsCommand(input) {
        reply := Ignored;
      } else if state == Amount {
        reply := AddPurchaseAmount(userId, input);
      } else if state == Price {
        reply := AddPurchasePrice(userId, input, now);
      } else {
        reply := MoonshotTarget(userId, input, btcPrice);
      }
    }
  }

  /** Amount "abc" is refused and the question repeated; "0.01" is then
      taken and the price asked for. */
  method AmountRetryScenario(owner: int, parse: string -> Option<real>) returns (first: Reply, second: Reply)
    requires parse("abc") == None && parse("0.01") == Some(0.01)
    ensures first == InvalidNumber && second == AskPrice
  {
    var bot := new Bot(owner, parse, []);
    var r := bot.Step(owner, AddPurchaseLabel, 0.0, 0);
    assert bot.state == Amount;
    assert !IsCommand("abc");
    first := bot.Step(owner, "abc", 0.0, 0);
    assert bot.state == Amount && bot.amount == None;
    assert !IsCommand("0.01");
    second := bot.Step(owner, "0.01", 0.0, 0);
    assert bot.state == Price && bot.amount == Some(0.01);
  }
}
