/**
 * The assistant service (backend/services/chatbot.service.js): it assembles a
 * text prompt from the user's message, an optional financial snapshot and the
 * recent conversation, hands it to the hosted language model, and wraps the
 * model's reply or failure in a `{success, message}` / `{success: false, error}`
 * envelope.  The model itself is the parameter `generate`; the text of a
 * number inside a template literal is the parameter `fmt`.
 */
module ChatbotService {
  import opened Wrappers
  import opened JsStrings

  // ---------------------------------------------------------------------------
  // Data
  // ---------------------------------------------------------------------------

  /** An account as the prompt reads it: `acc.name` and `acc.balances.current`. */
  datatype Account = Account(name: string, current: real)

  /** A recent transaction as the prompt reads it: `tx.name` and `tx.amount`. */
  datatype TxSummary = TxSummary(name: string, amount: real)

  /**
   * The snapshot sent by the client.  Every field may be absent; the spending
   * mapping is kept as its `Object.entries` list, in that order.
   */
  datatype FinancialData = FinancialData(
    totalBalance: Option<real>,
    accounts: Option<seq<Account>>,
    recentTransactions: Option<seq<TxSummary>>,
    spendingByCategory: Option<seq<(string, real)>>)

  /** One entry of the conversation history: `{sender, text}`. */
  datatype ChatMessage = ChatMessage(sender: string, text: string)

  /** What the language model call yields: its text, or an error with a (possibly empty) message. */
  datatype GenOutcome = Generated(text: string) | GenerationFailed(message: string)

  /** The service's result envelope. */
  datatype ServiceResult = Succeeded(message: string) | Failed(error: string)

  const DefaultError: string := "Failed to process message"

  /** The envelope around a model outcome: `error.message || 'Failed to process message'`. */
  function Envelope(o: GenOutcome): (r: ServiceResult)
    ensures r.Succeeded? <==> o.Generated?
    ensures r.Succeeded? ==> r.message == o.text
    ensures r.Failed? ==> r.error != "" && (o.message != "" ==> r.error == o.message)
    ensures r.Failed? && o.message == "" ==> r.error == DefaultError
  {
    match o
    case Generated(text) => Succeeded(text)
    case GenerationFailed(m) => Failed(if m == "" then DefaultError else m)
  }

  // ---------------------------------------------------------------------------
  // chat: a fixed prompt, the history is not used
  // ---------------------------------------------------------------------------

  const ChatPreamble: string :=
    "You are a helpful financial advisor. Give brief advice (under 100 words).\n\nUser: "

  function ChatPrompt(userMessage: string): string {
    ChatPreamble + userMessage
  }

  /** `chat(userMessage, conversationHistory)`: the model's answer to the fixed prompt, in its envelope. */
  function Chat(userMessage: string, conversationHistory: seq<ChatMessage>,
                generate: string -> GenOutcome): (r: ServiceResult)
    ensures r == Envelope(generate(ChatPrompt(userMessage)))
    ensures r.Succeeded? ==> r.message == generate(ChatPrompt(userMessage)).text
  {
    Envelope(generate(ChatPrompt(userMessage)))
  }

  /** `chat` ignores the conversation history entirely. */
  lemma {:induction false} ChatIgnoresHistory(userMessage: string, h1: seq<ChatMessage>, h2: seq<ChatMessage>,
                           generate: string -> GenOutcome)
    ensures Chat(userMessage, h1, generate) == Chat(userMessage, h2, generate)
    ensures Chat(userMessage, h1, generate).Failed? <==> generate(ChatPrompt(userMessage)).GenerationFailed?
  {
  }

  // ---------------------------------------------------------------------------
  // chatWithContext: the prompt, section by section
  // ---------------------------------------------------------------------------

  /** The pieces of a list, written one after the other. */
  function Flatten(pieces: seq<string>): string {
    if |pieces| == 0 then "" else Flatten(pieces[..|pieces| - 1]) + pieces[|pieces| - 1]
  }

  const Preamble: string :=
    "You are a helpful financial advisor. Give brief, actionable advice (under 100 words).\n\n"
  const FinancialHeader: string := "User's Financial Data:\n"
  const HistoryHeader: string := "Recent Conversation:\n"
  const MaxRecentTransactions: nat := 5
  const MaxHistory: nat := 6

  function Bullet(name: string, value: string): string {
    "  • " + name + ": $" + value + "\n"
  }

  function AccountBullets(accounts: seq<Account>, fmt: real -> string): seq<string> {
    seq(|accounts|, k requires 0 <= k < |accounts| => Bullet(accounts[k].name, fmt(accounts[k].current)))
  }

  function TxBullets(txs: seq<TxSummary>, fmt: real -> string): seq<string> {
    seq(|txs|, k requires 0 <= k < |txs| => Bullet(txs[k].name, fmt(txs[k].amount)))
  }

  function CategoryBullets(entries: seq<(string, real)>, fmt: real -> string): seq<string> {
    seq(|entries|, k requires 0 <= k < |entries| => Bullet(entries[k].0, fmt(entries[k].1)))
  }

  /** `if (totalBalance)`: a zero (or absent) balance is falsy and prints nothing. */
  function BalanceLine(totalBalance: Option<real>, fmt: real -> string): string {
    if totalBalance.Some? && totalBalance.value != 0.0 then
      "- Total Balance: $" + fmt(totalBalance.value) + "\n"
    else ""
  }

  function AccountsBlock(accounts: Option<seq<Account>>, fmt: real -> string): string {
    if accounts.Some? && |accounts.value| > 0 then
      "- Accounts: " + NatToString(|accounts.value|) + "\n" + Flatten(AccountBullets(accounts.value, fmt))
    else ""
  }

  /** `recentTransactions.slice(0, 5)`. */
  function FirstFive(txs: seq<TxSummary>): (r: seq<TxSummary>)
    ensures |r| == if |txs| < MaxRecentTransactions then |txs| else MaxRecentTransactions
    ensures r == txs[..|r|]
  {
    if |txs| <= MaxRecentTransactions then txs else txs[..MaxRecentTransactions]
  }

  function TransactionsBlock(txs: Option<seq<TxSummary>>, fmt: real -> string): string {
    if txs.Some? && |txs.value| > 0 then
      "- Recent Transactions:\n" + Flatten(TxBullets(FirstFive(txs.value), fmt))
    else ""
  }

  /** An object is truthy even when it has no entries, so the header is kept. */
  function CategoryBlock(spending: Option<seq<(string, real)>>, fmt: real -> string): string {
    if spending.Some? then "- Spending by Category:\n" + Flatten(CategoryBullets(spending.value, fmt))
    else ""
  }

  function FinancialSection(d: FinancialData, fmt: real -> string): string {
    FinancialHeader + BalanceLine(d.totalBalance, fmt) + AccountsBlock(d.accounts, fmt)
    + TransactionsBlock(d.recentTransactions, fmt) + CategoryBlock(d.spendingByCategory, fmt) + "\n"
  }

  function FinancialPart(data: Option<FinancialData>, fmt: real -> string): string {
    if data.Some? then FinancialSection(data.value, fmt) else ""
  }

  /** `conversationHistory.slice(-6)`: the last (at most) six messages. */
  function Recent(history: seq<ChatMessage>): (r: seq<ChatMessage>)
    ensures |r| == if |history| < MaxHistory then |history| else MaxHistory
    ensures r == history[|history| - |r|..]
  {
    if |history| <= MaxHistory then history else history[|history| - MaxHistory..]
  }

  function Role(sender: string): string {
    if sender == "user" then "User" else "Assistant"
  }

  function HistoryLine(m: ChatMessage): string {
    Role(m.sender) + ": " + m.text + "\n"
  }

  function HistoryLines(history: seq<ChatMessage>): seq<string> {
    seq(|history|, k requires 0 <= k < |history| => HistoryLine(history[k]))
  }

  function HistorySection(history: seq<ChatMessage>): string {
    var recent := Recent(history);
    if |recent| > 0 then HistoryHeader + Flatten(HistoryLines(recent)) + "\n" else ""
  }

  function Closing(userMessage: string): string {
    "User: " + userMessage + "\nAssistant:"
  }

  /** The prompt `chatWithContext` builds. */
  function ContextPrompt(userMessage: string, data: Option<FinancialData>,
                         history: seq<ChatMessage>, fmt: real -> string): string
  {
    Preamble + FinancialPart(data, fmt) + HistorySection(history) + Closing(userMessage)
  }

  /** The `accounts.forEach` loop: one bullet per account appended to `context`. */
  method AppendAccounts(context: string, accounts: seq<Account>, fmt: real -> string)
    returns (c: string)
    ensures c == context + Flatten(AccountBullets(accounts, fmt))
  {
    ghost var pieces := AccountBullets(accounts, fmt);
    c := context;
    for i := 0 to |accounts|
      invariant c == context + Flatten(pieces[..i])
    {
      assert pieces[..i + 1][..i] == pieces[..i];
      c := c + Bullet(accounts[i].name, fmt(accounts[i].current));
    }
    assert pieces[..|accounts|] == pieces;
  }

  /** The `slice(0, 5).forEach` loop over recent transactions. */
  method AppendTransactions(context: string, txs: seq<TxSummary>, fmt: real -> string)
    returns (c: string)
    ensures c == context + Flatten(TxBullets(FirstFive(txs), fmt))
  {
    var first := FirstFive(txs);
    ghost var pieces := TxBullets(first, fmt);
    c := context;
    for i := 0 to |first|
      invariant c == context + Flatten(pieces[..i])
    {
      assert pieces[..i + 1][..i] == pieces[..i];
      c := c + Bullet(first[i].name, fmt(first[i].amount));
    }
    assert pieces[..|first|] == pieces;
  }

  /** The `Object.entries(spendingByCategory).forEach` loop. */
  method AppendCategories(context: string, entries: seq<(string, real)>, fmt: real -> string)
    returns (c: string)
    ensures c == context + Flatten(CategoryBullets(entries, fmt))
  {
    ghost var pieces := CategoryBullets(entries, fmt);
    c := context;
    for i := 0 to |entries|
      invariant c == context + Flatten(pieces[..i])
    {
      assert pieces[..i + 1][..i] == pieces[..i];
      var (cat, amt) := entries[i];
      c := c + Bullet(cat, fmt(amt));
    }
    assert pieces[..|entries|] == pieces;
  }

  /** The `recentHistory.forEach` loop: one labelled line per message. */
  method AppendHistory(context: string, recentHistory: seq<ChatMessage>) returns (c: string)
    ensures c == context + Flatten(HistoryLines(recentHistory))
  {
    ghost var pieces := HistoryLines(recentHistory);
    c := context;
    for i := 0 to |recentHistory|
      invariant c == context + Flatten(pieces[..i])
    {
      assert pieces[..i + 1][..i] == pieces[..i];
      var role := if recentHistory[i].sender == "user" then "User" else "Assistant";
      var line := role + ": " + recentHistory[i].text + "\n";
      assert line == pieces[i];
      assert Flatten(pieces[..i + 1]) == Flatten(pieces[..i]) + line;
      c := c + line;
    }
    assert pieces[..|recentHistory|] == pieces;
  }

  /** The `if (userFinancialData) { ... }` block. */
  method AppendFinancialData(context: string, d: FinancialData, fmt: real -> string)
    returns (c: string)
    ensures c == context + FinancialSection(d, fmt)
  {
    c := context + FinancialHeader;
    if d.totalBalance.Some? && d.totalBalance.value != 0.0 {
      c := c + ("- Total Balance: $" + fmt(d.totalBalance.value) + "\n");
    }
    ghost var c1 := c;
    Assoc(context, FinancialHeader, BalanceLine(d.totalBalance, fmt));
    if d.accounts.Some? && |d.accounts.value| > 0 {
      var line := "- Accounts: " + NatToString(|d.accounts.value|) + "\n";
      c := c + line;
      c := AppendAccounts(c, d.accounts.value, fmt);
      Assoc(c1, line, Flatten(AccountBullets(d.accounts.value, fmt)));
    }
    ghost var c2 := c;
    assert c2 == c1 + AccountsBlock(d.accounts, fmt);
    if d.recentTransactions.Some? && |d.recentTransactions.value| > 0 {
      var line := "- Recent Transactions:\n";
      c := c + line;
      c := AppendTransactions(c, d.recentTransactions.value, fmt);
      Assoc(c2, line, Flatten(TxBullets(FirstFive(d.recentTransactions.value), fmt)));
    }
    ghost var c3 := c;
    assert c3 == c2 + TransactionsBlock(d.recentTransactions, fmt);
    if d.spendingByCategory.Some? {
      var line := "- Spending by Category:\n";
      c := c + line;
      c := AppendCategories(c, d.spendingByCategory.value, fmt);
      Assoc(c3, line, Flatten(CategoryBullets(d.spendingByCategory.value, fmt)));
    }
    ghost var c4 := c;
    assert c4 == c3 + CategoryBlock(d.spendingByCategory, fmt);
    c := c + "\n";
    ghost var hb := FinancialHeader + BalanceLine(d.totalBalance, fmt);
    assert c1 == context + hb;
    assert c == context + hb + AccountsBlock(d.accounts, fmt) + TransactionsBlock(d.recentTransactions, fmt)
                + CategoryBlock(d.spendingByCategory, fmt) + "\n";
    FinancialSectionSteps(context, d, fmt);
  }

  lemma {:induction false} Assoc(a: string, b: string, c: string)
    ensures a + b + c == a + (b + c)
  {
  }

  /** Appending the section to a prefix is appending its parts one after another. */
  lemma {:induction false} FinancialSectionSteps(context: string, d: FinancialData, fmt: real -> string)
    ensures context + FinancialSection(d, fmt)
         == context + (FinancialHeader + BalanceLine(d.totalBalance, fmt)) + AccountsBlock(d.accounts, fmt)
            + TransactionsBlock(d.recentTransactions, fmt) + CategoryBlock(d.spendingByCategory, fmt) + "\n"
  {
    var h := FinancialHeader + BalanceLine(d.totalBalance, fmt);
    var a := AccountsBlock(d.accounts, fmt);
    var t := TransactionsBlock(d.recentTransactions, fmt);
    var k := CategoryBlock(d.spendingByCategory, fmt);
    assert FinancialSection(d, fmt) == h + a + t + k + "\n";
    Assoc(context, h, a);
    Assoc(context + h, a, t);
    Assoc(context, h + a, t);
    Assoc(context + h + a + t, k, "\n");
  }

  /**
   * `chatWithContext(userMessage, userFinancialData, conversationHistory)`:
   * builds the prompt by appending to `context`, then calls the model once.
   * `prompt` is the text handed to the model.
   */
  method ChatWithContext(userMessage: string, userFinancialData: Option<FinancialData>,
                         conversationHistory: seq<ChatMessage>,
                         fmt: real -> string, generate: string -> GenOutcome)
    returns (result: ServiceResult, prompt: string)
    ensures prompt == ContextPrompt(userMessage, userFinancialData, conversationHistory, fmt)
    ensures result == Envelope(generate(prompt))
  {
    var context := Preamble;
    if userFinancialData.Some? {
      context := AppendFinancialData(context, userFinancialData.value, fmt);
    }
    ghost var afterData := context;
    assert afterData == Preamble + FinancialPart(userFinancialData, fmt);

    var recentHistory := Recent(conversationHistory);
    if |recentHistory| > 0 {
      context := context + HistoryHeader;
      context := AppendHistory(context, recentHistory);
      context := context + "\n";
      ghost var lines := Flatten(HistoryLines(recentHistory));
      assert context == afterData + HistoryHeader + lines + "\n";
      Assoc(afterData, HistoryHeader, lines);
      Assoc(afterData, HistoryHeader + lines, "\n");
    }
    assert context == afterData + HistorySection(conversationHistory);

    context := context + ("User: " + userMessage + "\nAssistant:");
    prompt := context;
    var outcome := generate(prompt);
    result := Envelope(outcome);
  }

  // ---------------------------------------------------------------------------
  // What the prompt promises
  // ---------------------------------------------------------------------------

  /** Flattening distributes over concatenation of piece lists. */
  lemma {:induction false} FlattenAppend(a: seq<string>, b: seq<string>)
    ensures Flatten(a + b) == Flatten(a) + Flatten(b)
    decreases |b|
  {
    if |b| > 0 {
      FlattenAppend(a, b[..|b| - 1]);
      assert (a + b)[..|a + b| - 1] == a + b[..|b| - 1];
    } else {
      assert a + b == a;
    }
  }

  /**
   * One piece per item, in order: the k-th piece stands between the pieces
   * before it and those after it.
   */
  lemma {:induction false} PieceAt(pieces: seq<string>, k: nat)
    requires k < |pieces|
    ensures Flatten(pieces) == Flatten(pieces[..k]) + pieces[k] + Flatten(pieces[k + 1..])
  {
    var rest := pieces[k + 1..];
    assert pieces == pieces[..k] + ([pieces[k]] + rest);
    FlattenAppend(pieces[..k], [pieces[k]] + rest);
    FlattenAppend([pieces[k]], rest);
    FlattenOne(pieces[k]);
  }

  lemma {:induction false} FlattenOne(x: string)
    ensures Flatten([x]) == x
  {
    assert [x][..0] == [];
  }

  /** Every account is listed as exactly one bullet, in input order, after one count line. */
  lemma {:induction false} AccountBulletAt(accounts: seq<Account>, fmt: real -> string, k: nat)
    requires k < |accounts|
    ensures var pieces := AccountBullets(accounts, fmt);
      AccountsBlock(Some(accounts), fmt)
      == "- Accounts: " + NatToString(|accounts|) + "\n"
         + Flatten(pieces[..k]) + Bullet(accounts[k].name, fmt(accounts[k].current))
         + Flatten(pieces[k + 1..])
  {
    PieceAt(AccountBullets(accounts, fmt), k);
  }

  /** Each of the first five recent transactions is one bullet, in input order. */
  lemma {:induction false} TransactionBulletAt(txs: seq<TxSummary>, fmt: real -> string, k: nat)
    requires 0 < |txs| && k < |FirstFive(txs)|
    ensures var pieces := TxBullets(FirstFive(txs), fmt);
      TransactionsBlock(Some(txs), fmt)
      == "- Recent Transactions:\n"
         + Flatten(pieces[..k]) + Bullet(txs[k].name, fmt(txs[k].amount)) + Flatten(pieces[k + 1..])
  {
    PieceAt(TxBullets(FirstFive(txs), fmt), k);
  }

  /** Each spending entry is one bullet, in input order. */
  lemma {:induction false} CategoryBulletAt(entries: seq<(string, real)>, fmt: real -> string, k: nat)
    requires k < |entries|
    ensures var pieces := CategoryBullets(entries, fmt);
      CategoryBlock(Some(entries), fmt)
      == "- Spending by Category:\n"
         + Flatten(pieces[..k]) + Bullet(entries[k].0, fmt(entries[k].1)) + Flatten(pieces[k + 1..])
  {
    PieceAt(CategoryBullets(entries, fmt), k);
  }

  /** Each of the last six messages is one labelled line, in conversation order. */
  lemma {:induction false} HistoryLineAt(history: seq<ChatMessage>, k: nat)
    requires k < |Recent(history)|
    ensures var recent := Recent(history);
      var pieces := HistoryLines(recent);
      HistorySection(history)
      == HistoryHeader + Flatten(pieces[..k]) + HistoryLine(history[|history| - |recent| + k])
         + Flatten(pieces[k + 1..]) + "\n"
  {
    var recent := Recent(history);
    var pieces := HistoryLines(recent);
    var x := HistoryLine(history[|history| - |recent| + k]);
    assert pieces[k] == x;
    PieceAt(pieces, k);
    var a := Flatten(pieces[..k]);
    var b := Flatten(pieces[k + 1..]);
    assert HistorySection(history) == HistoryHeader + (a + x + b) + "\n";
    Assoc(HistoryHeader, a + x, b);
    Assoc(HistoryHeader, a, x);
  }

  /** Both the prompt's fixed opening and its closing `User: <message>\nAssistant:` are always there. */
  lemma {:induction false} PromptFraming(userMessage: string, data: Option<FinancialData>,
                      history: seq<ChatMessage>, fmt: real -> string)
    ensures var p := ContextPrompt(userMessage, data, history, fmt);
      |p| >= |Preamble| + |Closing(userMessage)|
      && p[..|Preamble|] == Preamble
      && p[|p| - |Closing(userMessage)|..] == Closing(userMessage)
  {
    Framed(Preamble, FinancialPart(data, fmt), HistorySection(history), Closing(userMessage));
  }

  /** A text built as `a + m + n + c` begins with `a` and ends with `c`. */
  lemma {:induction false} Framed(a: string, m: string, n: string, c: string)
    ensures var p := a + m + n + c;
      |p| >= |a| + |c| && p[..|a|] == a && p[|p| - |c|..] == c
  {
    var p := a + m + n + c;
    assert p[..|a|] == a;
    assert p[|p| - |c|..] == c;
  }

  /** A text ends with a line break. */
  predicate EndsLine(s: string) {
    |s| > 0 && s[|s| - 1] == '\n'
  }

  lemma {:induction false} EndsLineAppend(a: string, b: string)
    requires EndsLine(a) && (b == "" || EndsLine(b))
    ensures EndsLine(a + b)
  {
  }

  lemma {:induction false} FlattenOfLines(pieces: seq<string>)
    requires forall k :: 0 <= k < |pieces| ==> EndsLine(pieces[k])
    ensures Flatten(pieces) == "" || EndsLine(Flatten(pieces))
    decreases |pieces|
  {
    if |pieces| > 0 {
      var init := pieces[..|pieces| - 1];
      assert forall k :: 0 <= k < |init| ==> EndsLine(init[k]) by {
        forall k | 0 <= k < |init| ensures EndsLine(init[k]) {
          assert init[k] == pieces[k];
        }
      }
      FlattenOfLines(init);
    }
  }

  lemma {:induction false} BulletEndsLine(name: string, value: string)
    ensures EndsLine(Bullet(name, value))
  {
  }

  /** Every block of the financial section is empty or a run of whole lines. */
  lemma {:induction false} BlocksEndLines(d: FinancialData, fmt: real -> string)
    ensures var b := BalanceLine(d.totalBalance, fmt); b == "" || EndsLine(b)
    ensures var a := AccountsBlock(d.accounts, fmt); a == "" || EndsLine(a)
    ensures var t := TransactionsBlock(d.recentTransactions, fmt); t == "" || EndsLine(t)
    ensures var k := CategoryBlock(d.spendingByCategory, fmt); k == "" || EndsLine(k)
  {
    if d.accounts.Some? && |d.accounts.value| > 0 {
      var pieces := AccountBullets(d.accounts.value, fmt);
      forall k | 0 <= k < |pieces| ensures EndsLine(pieces[k]) {
        BulletEndsLine(d.accounts.value[k].name, fmt(d.accounts.value[k].current));
      }
      FlattenOfLines(pieces);
      EndsLineAppend("- Accounts: " + NatToString(|d.accounts.value|) + "\n", Flatten(pieces));
    }
    if d.recentTransactions.Some? && |d.recentTransactions.value| > 0 {
      var first := FirstFive(d.recentTransactions.value);
      var pieces := TxBullets(first, fmt);
      forall k | 0 <= k < |pieces| ensures EndsLine(pieces[k]) {
        BulletEndsLine(first[k].name, fmt(first[k].amount));
      }
      FlattenOfLines(pieces);
      EndsLineAppend("- Recent Transactions:\n", Flatten(pieces));
    }
    if d.spendingByCategory.Some? {
      var entries := d.spendingByCategory.value;
      var pieces := CategoryBullets(entries, fmt);
      forall k | 0 <= k < |pieces| ensures EndsLine(pieces[k]) {
        BulletEndsLine(entries[k].0, fmt(entries[k].1));
      }
      FlattenOfLines(pieces);
      EndsLineAppend("- Spending by Category:\n", Flatten(pieces));
    }
  }

  /**
   * The financial section is there exactly when a snapshot is given; it then
   * opens with its header and closes with a blank line.
   */
  lemma {:induction false} FinancialPartIffData(data: Option<FinancialData>, fmt: real -> string)
    ensures FinancialPart(data, fmt) != "" <==> data.Some?
    ensures data.Some? ==>
      var f := FinancialPart(data, fmt);
      |f| >= |FinancialHeader| + 1
      && f[..|FinancialHeader|] == FinancialHeader
      && f[|f| - 2..] == "\n\n"
  {
    if data.Some? {
      var d := data.value;
      var body := SectionBody(d, fmt);
      SectionBodyEndsLine(d, fmt);
      assert FinancialPart(data, fmt) == body + "\n";
      BlankLineAfter(body);
      PrefixKept(FinancialHeader, BalanceLine(d.totalBalance, fmt) + AccountsBlock(d.accounts, fmt)
        + TransactionsBlock(d.recentTransactions, fmt) + CategoryBlock(d.spendingByCategory, fmt) + "\n");
    }
  }

  /** The financial section without its closing blank line. */
  function SectionBody(d: FinancialData, fmt: real -> string): string {
    FinancialHeader + BalanceLine(d.totalBalance, fmt) + AccountsBlock(d.accounts, fmt)
    + TransactionsBlock(d.recentTransactions, fmt) + CategoryBlock(d.spendingByCategory, fmt)
  }

  lemma {:induction false} SectionBodyEndsLine(d: FinancialData, fmt: real -> string)
    ensures EndsLine(SectionBody(d, fmt))
  {
    BlocksEndLines(d, fmt);
    var h := FinancialHeader;
    var b := BalanceLine(d.totalBalance, fmt);
    var a := AccountsBlock(d.accounts, fmt);
    var t := TransactionsBlock(d.recentTransactions, fmt);
    var k := CategoryBlock(d.spendingByCategory, fmt);
    assert EndsLine(h);
    EndsLineAppend(h, b);
    EndsLineAppend(h + b, a);
    EndsLineAppend(h + b + a, t);
    EndsLineAppend(h + b + a + t, k);
  }

  lemma {:induction false} BlankLineAfter(body: string)
    requires EndsLine(body)
    ensures var f := body + "\n"; |f| >= 2 && f[|f| - 2..] == "\n\n"
  {
    var f := body + "\n";
    assert f[|f| - 2..] == [body[|body| - 1], '\n'];
  }

  lemma {:induction false} PrefixKept(h: string, rest: string)
    ensures (h + rest)[..|h|] == h
  {
  }

  /** A zero balance is falsy: it prints exactly as an absent one. */
  lemma {:induction false} ZeroBalanceOmitted(d: FinancialData, fmt: real -> string)
    ensures FinancialSection(d.(totalBalance := Some(0.0)), fmt)
         == FinancialSection(d.(totalBalance := None), fmt)
  {
  }

  /** Only the first five recent transactions can influence the prompt. */
  lemma {:induction false} OnlyFirstFiveTransactions(d: FinancialData, more: seq<TxSummary>, fmt: real -> string)
    requires d.recentTransactions.Some? && |d.recentTransactions.value| >= MaxRecentTransactions
    ensures var txs := d.recentTransactions.value;
      FinancialSection(d.(recentTransactions := Some(txs + more)), fmt) == FinancialSection(d, fmt)
  {
    var txs := d.recentTransactions.value;
    assert FirstFive(txs + more) == FirstFive(txs);
  }

  /** The spending header is printed even for an empty mapping. */
  lemma {:induction false} EmptySpendingKeepsHeader(fmt: real -> string)
    ensures CategoryBlock(Some([]), fmt) == "- Spending by Category:\n"
  {
    assert CategoryBullets([], fmt) == [];
  }

  /** Older messages than the last six never reach the prompt. */
  lemma {:induction false} OnlyLastSixMessages(userMessage: string, data: Option<FinancialData>,
                            older: seq<ChatMessage>, history: seq<ChatMessage>, fmt: real -> string)
    requires |history| >= MaxHistory
    ensures ContextPrompt(userMessage, data, older + history, fmt)
         == ContextPrompt(userMessage, data, history, fmt)
  {
    var h := older + history;
    assert h[|h| - MaxHistory..] == history[|history| - MaxHistory..];
    assert Recent(h) == Recent(history);
    assert HistorySection(h) == HistorySection(history);
  }

  /** The history section is absent exactly when there is no history. */
  lemma {:induction false} HistoryAbsentIffEmpty(history: seq<ChatMessage>)
    ensures HistorySection(history) == "" <==> |history| == 0
  {
  }

  /** A history line is labelled `User` exactly for a message whose sender is `'user'`, `Assistant` otherwise. */
  lemma {:induction false} HistoryLabel(m: ChatMessage)
    ensures HistoryLine(m)[..6] == "User: " <==> m.sender == "user"
    ensures m.sender != "user" ==> HistoryLine(m)[..11] == "Assistant: "
  {
    if m.sender != "user" {
      assert HistoryLine(m)[..6] == "Assist";
    }
  }
}
