/**
 * `POST /api/chat` (src/app/api/chat/route.ts): the agent's decision
 * procedure. A rate-limit gate, then the intent from the message, the
 * recipient's ENS preferences applied as defaults, and either a paywall
 * route (HTTP 402) or the merged v4 and LI.FI routes filtered by the
 * recipient's maximum fee.
 *
 * The intent parser, the ENS resolver, `fetch`, `findRoutes` and
 * `findV4Routes` are the fields of `Providers`; `Err(message)` is a thrown
 * error, which the handler turns into a 500.
 */
module ChatRoute {
  import opened Wrappers
  import opened Strings
  import opened Numbers
  import opened Types
  import opened X402Client
  import RateLimit
  import Lifi

  const TOO_MANY_REQUESTS := "Too many requests. Please wait before trying again."
  const MESSAGE_REQUIRED := "Message is required"
  const UNKNOWN_CLIENT := "unknown"
  const DEFAULT_CHAIN := "ethereum"
  const DEFAULT_HOST := "localhost:3000"
  const DEFAULT_PROTOCOL := "http"
  const PAYWALL_ROUTE_ID := "x402-pay"
  const PAYWALL_PROVIDER := "x402"

  /** The JSON body; `None` for a field that is absent (or null). */
  datatype ChatBody = ChatBody(message: Option<string>, userAddress: Option<string>, slippage: Option<real>)

  /** The request headers the handler reads. */
  datatype Headers = Headers(forwardedFor: Option<string>, host: Option<string>, forwardedProto: Option<string>)

  /** What `resolveENS(name)` returns: the address and the profile's text records. */
  datatype EnsResolution = EnsResolution(
    address: Option<string>, preferredChain: Option<string>, preferredToken: Option<string>,
    preferredSlippage: Option<string>, maxFee: Option<string>, avatar: Option<string>, description: Option<string>)

  /** The parameters of `findRoutes`. */
  datatype RoutesRequest = RoutesRequest(
    fromAddress: string, fromChain: string, toChain: string, fromToken: string, toToken: string,
    amount: string, slippage: Option<real>)

  /** The parameters of `findV4Routes`. */
  datatype V4Request = V4Request(fromChain: string, toChain: string, fromToken: string, toToken: string, amount: string)

  /** The collaborators of the handler. */
  datatype Providers = Providers(
    parseIntent: string -> Result<ParsedIntent>,
    resolveEns: string -> Result<EnsResolution>,
    fetch: string -> FetchOutcome,
    findRoutes: RoutesRequest -> Result<seq<RouteOption>>,
    findV4Routes: V4Request -> seq<RouteOption>)

  datatype EnsProfile = EnsProfile(avatar: Option<string>, description: Option<string>)

  /** The JSON response: an error with its status, or the agent's reply (status 200). */
  datatype ChatResponse =
    | Failure(status: nat, error: string)
    | Reply(content: string, intent: ParsedIntent, routes: Option<seq<RouteOption>>,
            resolvedAddress: Option<string>, ensProfile: Option<EnsProfile>)

  // ---- the client key of the rate limiter ----

  /** The text before the first ',' (`s.split(',')[0]`). */
  function FirstField(s: string): (r: string)
    ensures |r| <= |s| && r == s[..|r|] && ',' !in r
    ensures |r| < |s| ==> s[|r|] == ','
  {
    if |s| == 0 || s[0] == ',' then "" else [s[0]] + FirstField(s[1..])
  }

  /** The first address of X-Forwarded-For, trimmed, or "unknown". */
  function ClientKey(forwardedFor: Option<string>): (key: string)
    ensures key != ""
    ensures forwardedFor.None? ==> key == UNKNOWN_CLIENT
  {
    var first := if forwardedFor.Some? then Trim(FirstField(forwardedFor.value)) else "";
    if first != "" then first else UNKNOWN_CLIENT
  }

  /** Only the first hop of X-Forwarded-For identifies the client. */
  lemma {:induction false} FirstFieldOfList(a: string, b: string)
    requires ',' !in a
    ensures FirstField(a + "," + b) == a
  {
    if |a| > 0 {
      assert (a + "," + b)[1..] == a[1..] + "," + b;
      FirstFieldOfList(a[1..], b);
    }
  }

  lemma ClientKeyIgnoresLaterHops(a: string, b: string)
    requires ',' !in a
    ensures ClientKey(Some(a + "," + b)) == ClientKey(Some(a))
  {
    FirstFieldOfList(a, b);
    assert FirstField(a) == a;
  }

  // ---- ENS preferences ----

  /** `toAddress.endsWith('.eth')` on a present, non-empty recipient. */
  predicate IsEnsName(toAddress: Option<string>) {
    Truthy(toAddress) && EndsWith(toAddress.value, ".eth")
  }

  /** The recipient's preferred chain and token fill the intent's empty fields; nothing else changes. */
  function ApplyEnsDefaults(intent: ParsedIntent, res: EnsResolution): (r: ParsedIntent)
    ensures Truthy(intent.toChain) ==> r.toChain == intent.toChain
    ensures intent.toToken != "" ==> r.toToken == intent.toToken
    ensures Truthy(r.toChain) <==> Truthy(intent.toChain) || Truthy(res.preferredChain)
    ensures r.toToken != "" <==> intent.toToken != "" || Truthy(res.preferredToken)
    ensures !Truthy(intent.toChain) && Truthy(res.preferredChain) ==> r.toChain == res.preferredChain
    ensures intent.toToken == "" && Truthy(res.preferredToken) ==> r.toToken == res.preferredToken.value
    ensures r.(toChain := intent.toChain, toToken := intent.toToken) == intent
  {
    var withChain := if Truthy(res.preferredChain) && !Truthy(intent.toChain)
                     then intent.(toChain := res.preferredChain) else intent;
    if Truthy(res.preferredToken) && withChain.toToken == ""
    then withChain.(toToken := res.preferredToken.value) else withChain
  }

  /** Applying the preferences a second time changes nothing. */
  lemma EnsDefaultsIdempotent(intent: ParsedIntent, res: EnsResolution)
    ensures ApplyEnsDefaults(ApplyEnsDefaults(intent, res), res) == ApplyEnsDefaults(intent, res)
  {
  }

  /**
   * The profile's slippage as a fraction: used only when it parses to a
   * positive number of percent, then divided by 100.
   */
  function ProfileSlippage(preferred: Option<string>): (r: Option<real>)
    ensures r.Some? <==> Truthy(preferred) && ParseFloat(preferred.value).Some? && ParseFloat(preferred.value).value > 0.0
    ensures r.Some? ==> r.value > 0.0 && r.value * 100.0 == ParseFloat(preferred.value).value
  {
    if Truthy(preferred) then
      match ParseFloat(preferred.value)
      case Some(parsed) => if parsed > 0.0 then Some(parsed / 100.0) else None
      case None => None
    else None
  }

  /** A profile asking for "0.5" percent gives the SDK a slippage of 0.005. */
  lemma HalfPercentSlippage()
    ensures ProfileSlippage(Some("0.5")) == Some(0.005)
  {
    ParseHalf();
  }

  lemma ParseHalf()
    ensures ParseFloat("0.5") == Some(0.5)
  {
    assert DecimalValue("0", "5") == 0.5 by {
      assert DigitsValue("0") == 0 by { assert "0"[..0] == ""; }
      assert DigitsValue("5") == 5 by { assert "5"[..0] == ""; }
      assert Pow10(1) == 10;
    }
    assert "0" + "." + "5" == "0.5";
    Lifi.ParseDecimalText("0", "5", 0.5);
  }

  /** `slippage ?? ensSlippage`: the caller's value, when it sent one, wins. */
  function EffectiveSlippage(caller: Option<real>, profile: Option<real>): (r: Option<real>)
    ensures caller.Some? ==> r == caller
    ensures caller.None? ==> r == profile
  {
    if caller.Some? then caller else profile
  }

  /** `Resolved <name> → <address>`, the preferences in brackets, the description on its own line. */
  function EnsNote(name: string, res: EnsResolution): (note: string)
    requires Truthy(res.address)
    ensures StartsWith(note, "Resolved " + name + " → " + res.address.value)
    ensures note != ""
  {
    var parts := (if Truthy(res.preferredToken) then [res.preferredToken.value] else [])
               + (if Truthy(res.preferredChain) then ["on " + res.preferredChain.value] else [])
               + (if Truthy(res.preferredSlippage) then ["slippage ≤" + res.preferredSlippage.value + "%"] else [])
               + (if Truthy(res.maxFee) then ["max fee $" + res.maxFee.value] else []);
    var head := "Resolved " + name + " → " + res.address.value;
    var prefs := if |parts| > 0 then " (prefers " + Join(parts, ", ") + ")" else "";
    var profile := if Truthy(res.description) then "\nProfile: " + res.description.value else "";
    assert head + prefs + profile == head + (prefs + profile);
    head + prefs + profile
  }

  /** What the handler keeps from a resolved recipient. */
  datatype EnsContext = EnsContext(
    resolvedAddress: Option<string>, note: string, slippage: Option<real>,
    maxFee: Option<string>, avatar: Option<string>, description: Option<string>)

  const NO_ENS := EnsContext(None, "", None, None, None, None)

  /** The ENS step: the recipient is not an ENS name, or it resolved to nothing, or it resolved. */
  datatype EnsStep = Unresolved | Proceed(intent: ParsedIntent, ens: EnsContext)

  function EnsStage(p: Providers, intent: ParsedIntent): (r: Result<EnsStep>)
    ensures !IsEnsName(intent.toAddress) ==> r == Ok(Proceed(intent, NO_ENS))
    ensures IsEnsName(intent.toAddress) ==>
              (r.Err? <==> p.resolveEns(intent.toAddress.value).Err?)
    ensures IsEnsName(intent.toAddress) && p.resolveEns(intent.toAddress.value).Ok? ==>
              var res := p.resolveEns(intent.toAddress.value).value;
              && (r.value.Unresolved? <==> !Truthy(res.address))
              && (r.value.Proceed? ==>
                    && r.value.intent == ApplyEnsDefaults(intent, res)
                    && r.value.ens.resolvedAddress == res.address
                    && r.value.ens.slippage == ProfileSlippage(res.preferredSlippage)
                    && r.value.ens.maxFee == res.maxFee
                    && r.value.ens.note != ""
                    && r.value.ens == EnsContext(res.address, EnsNote(intent.toAddress.value, res),
                                                 ProfileSlippage(res.preferredSlippage), res.maxFee, res.avatar, res.description))
  {
    if !IsEnsName(intent.toAddress) then Ok(Proceed(intent, NO_ENS))
    else match p.resolveEns(intent.toAddress.value)
      case Err(e) => Err(e)
      case Ok(res) =>
        if !Truthy(res.address) then Ok(Unresolved)
        else Ok(Proceed(ApplyEnsDefaults(intent, res),
                        EnsContext(res.address, EnsNote(intent.toAddress.value, res), ProfileSlippage(res.preferredSlippage),
                                   res.maxFee, res.avatar, res.description)))
  }

  // ---- the agent's message ----

  /** `${ensNote}\n\n${message}` when there is a note. */
  function WithNote(note: string, message: string): (r: string)
    ensures note == "" ==> r == message
    ensures note != "" ==> StartsWith(r, note) && EndsWith(r, message)
  {
    if note != "" then note + "\n\n" + message else message
  }

  /** The message announcing a transfer or a swap. */
  function ActionMessage(intent: ParsedIntent, resolvedAddress: Option<string>): (m: string)
    requires !intent.action.PayX402?
    ensures intent.action.Transfer? ==>
              StartsWith(m, "I'll transfer " + intent.amount + " " + intent.fromToken) && EndsWith(m, ". Finding the best route...")
    ensures intent.action.Swap? ==>
              StartsWith(m, "I'll swap " + intent.amount + " " + intent.fromToken + " to " + intent.toToken)
              && EndsWith(m, ". Comparing rates...")
  {
    var displayAddress := OrElse(resolvedAddress, intent.toAddress);
    var onChain := if Truthy(intent.toChain) then " on " + intent.toChain.value else "";
    if intent.action.Transfer? then
      "I'll transfer " + intent.amount + " " + intent.fromToken
      + (if Truthy(displayAddress) then " to " + displayAddress.value else "")
      + onChain + ". Finding the best route..."
    else
      "I'll swap " + intent.amount + " " + intent.fromToken + " to " + intent.toToken + onChain + ". Comparing rates..."
  }

  /** The message names the destination chain, and a transfer names its recipient, the resolved address first. */
  lemma ActionMessageMentions(intent: ParsedIntent, resolvedAddress: Option<string>)
    requires !intent.action.PayX402?
    ensures Truthy(intent.toChain) ==> Contains(ActionMessage(intent, resolvedAddress), " on " + intent.toChain.value)
    ensures intent.action.Transfer? && Truthy(OrElse(resolvedAddress, intent.toAddress)) ==>
              Contains(ActionMessage(intent, resolvedAddress), " to " + OrElse(resolvedAddress, intent.toAddress).value)
  {
    var display := OrElse(resolvedAddress, intent.toAddress);
    var onChain := if Truthy(intent.toChain) then " on " + intent.toChain.value else "";
    var m := ActionMessage(intent, resolvedAddress);
    if intent.action.Transfer? {
      var head := "I'll transfer " + intent.amount + " " + intent.fromToken;
      var to := if Truthy(display) then " to " + display.value else "";
      var tail := ". Finding the best route...";
      assert m == head + to + onChain + tail;
      if Truthy(intent.toChain) {
        assert m == (head + to) + onChain + tail;
        ContainsMiddle(head + to, onChain, tail);
      }
      if Truthy(display) {
        assert m == head + to + (onChain + tail);
        ContainsMiddle(head, to, onChain + tail);
      }
    } else if Truthy(intent.toChain) {
      var head := "I'll swap " + intent.amount + " " + intent.fromToken + " to " + intent.toToken;
      assert m == head + onChain + ". Comparing rates...";
      ContainsMiddle(head, onChain, ". Comparing rates...");
    }
  }

  // ---- the paywall route ----

  /** A relative URL is made absolute with the forwarded protocol and the host. */
  function FullUrl(url: string, headers: Headers): (r: string)
    ensures EndsWith(r, url)
    ensures !StartsWith(url, "/") ==> r == url
    ensures StartsWith(url, "/") ==> StartsWith(r, Or(headers.forwardedProto, DEFAULT_PROTOCOL) + "://" + Or(headers.host, DEFAULT_HOST))
  {
    if StartsWith(url, "/") then
      var prefix := Or(headers.forwardedProto, DEFAULT_PROTOCOL) + "://" + Or(headers.host, DEFAULT_HOST);
      assert (prefix + url)[..|prefix|] == prefix;
      prefix + url
    else url
  }

  /** The single route offered for a detected paywall. */
  function PaywallRoute(d: X402PaymentDetails): (r: RouteOption)
    ensures r.id == PAYWALL_ROUTE_ID && r.provider == PAYWALL_PROVIDER && r.routeType.None?
    ensures r.fee == d.amount + " " + d.token
  {
    RouteOption(PAYWALL_ROUTE_ID, "Pay " + d.amount + " " + d.token + " on " + d.chain,
                d.amount + " " + d.token, "~10s", PAYWALL_PROVIDER, None)
  }

  function PaywallMessage(url: string, d: X402PaymentDetails): string {
    "Paywall detected at " + url + ". Payment required: " + d.amount + " " + d.token + " on " + d.chain
    + " to " + d.recipient + ". I can handle this payment for you."
  }

  /** The `pay_x402` branch: probe the URL and offer one route for the payment it asks. */
  function PaywallReply(p: Providers, headers: Headers, intent: ParsedIntent, ens: EnsContext): (r: ChatResponse)
    ensures r.Reply? && r.intent == intent && r.resolvedAddress == ens.resolvedAddress
    ensures var d := if Truthy(intent.url) then Probe(p.fetch(FullUrl(intent.url.value, headers)), ParseDetails) else None;
      && (d.Some? ==> r.routes == Some([PaywallRoute(d.value)]) && r.ensProfile.None?)
      && (d.None? ==> r.routes.None? && r.ensProfile == ProfileOf(ens))
  {
    if Truthy(intent.url) then
      match Probe(p.fetch(FullUrl(intent.url.value, headers)), ParseDetails)
      case Some(d) =>
        Reply(WithNote(ens.note, PaywallMessage(intent.url.value, d)), intent, Some([PaywallRoute(d)]), ens.resolvedAddress, None)
      case None =>
        Reply(WithNote(ens.note, "I checked " + intent.url.value + " but no x402 paywall was detected. The resource may be freely accessible."),
              intent, None, ens.resolvedAddress, ProfileOf(ens))
    else
      Reply(WithNote(ens.note, "No URL provided for x402 payment. Please specify the URL you want to access."),
            intent, None, ens.resolvedAddress, ProfileOf(ens))
  }

  // ---- chains, providers and the merge ----

  /** `intent.fromChain || 'ethereum'`. */
  function FromChain(intent: ParsedIntent): (c: string)
    ensures c != ""
    ensures Truthy(intent.fromChain) ==> c == intent.fromChain.value
  {
    Or(intent.fromChain, DEFAULT_CHAIN)
  }

  /** `intent.toChain || intent.fromChain || 'ethereum'`. */
  function ToChain(intent: ParsedIntent): (c: string)
    ensures c != ""
    ensures Truthy(intent.toChain) ==> c == intent.toChain.value
  {
    Or(OrElse(intent.toChain, intent.fromChain), DEFAULT_CHAIN)
  }

  /** Without a destination chain, the route stays on the source chain. */
  lemma SameChainByDefault(intent: ParsedIntent)
    requires !Truthy(intent.toChain)
    ensures ToChain(intent) == FromChain(intent)
  {
  }

  function LifiRequest(intent: ParsedIntent, body: ChatBody, ens: EnsContext): (q: RoutesRequest)
    ensures q.fromAddress == Or(body.userAddress, Lifi.ZERO_ADDRESS)
    ensures q.fromChain == FromChain(intent) && q.toChain == ToChain(intent)
    ensures q.slippage == EffectiveSlippage(body.slippage, ens.slippage)
  {
    RoutesRequest(Or(body.userAddress, Lifi.ZERO_ADDRESS), FromChain(intent), ToChain(intent),
                  intent.fromToken, intent.toToken, intent.amount, EffectiveSlippage(body.slippage, ens.slippage))
  }

  function V4RequestFor(intent: ParsedIntent): V4Request {
    V4Request(FromChain(intent), ToChain(intent), intent.fromToken, intent.toToken, intent.amount)
  }

  /** v4 hook routes (swaps only) ahead of the LI.FI routes. */
  function MergeRoutes(action: Action, v4: seq<RouteOption>, lifi: seq<RouteOption>): (all: seq<RouteOption>)
    ensures action.Swap? ==> |all| == |v4| + |lifi| && all[..|v4|] == v4 && all[|v4|..] == lifi
    ensures !action.Swap? ==> all == lifi
  {
    if action.Swap? then v4 + lifi else lifi
  }

  // ---- the maximum-fee filter ----

  /** The fee's number, after stripping all but digits and dots; `None` when it is NaN. */
  function FeeNumber(r: RouteOption): Option<real> {
    ParseFloat(DigitsAndDots(r.fee))
  }

  /** A route is within the maximum when its fee does not parse or is at most the maximum. */
  predicate WithinFee(r: RouteOption, maxFee: real) {
    FeeNumber(r).None? || FeeNumber(r).value <= maxFee
  }

  /** `routes.filter(r => within(r))`. */
  function KeepWithin(routes: seq<RouteOption>, maxFee: real): (kept: seq<RouteOption>)
    ensures |kept| <= |routes|
    ensures forall i :: 0 <= i < |kept| ==> WithinFee(kept[i], maxFee)
    ensures forall r :: r in kept <==> r in routes && WithinFee(r, maxFee)
  {
    if |routes| == 0 then []
    else
      var rest := KeepWithin(routes[1..], maxFee);
      assert forall r :: r in routes <==> r == routes[0] || r in routes[1..];
      if WithinFee(routes[0], maxFee) then [routes[0]] + rest else rest
  }

  /** The filter works route by route: filtering a concatenation concatenates the filtered parts, in order. */
  lemma {:induction false} KeepWithinAppend(a: seq<RouteOption>, b: seq<RouteOption>, maxFee: real)
    ensures KeepWithin(a + b, maxFee) == KeepWithin(a, maxFee) + KeepWithin(b, maxFee)
  {
    if |a| == 0 {
      assert a + b == b;
    } else {
      assert (a + b)[0] == a[0] && (a + b)[1..] == a[1..] + b;
      KeepWithinAppend(a[1..], b, maxFee);
    }
  }

  /** Routes all within the maximum are kept as they are, so filtering twice is filtering once. */
  lemma {:induction false} KeepWithinAllWithin(routes: seq<RouteOption>, maxFee: real)
    requires forall i :: 0 <= i < |routes| ==> WithinFee(routes[i], maxFee)
    ensures KeepWithin(routes, maxFee) == routes
  {
    if |routes| > 0 {
      KeepWithinAllWithin(routes[1..], maxFee);
      assert routes == [routes[0]] + routes[1..];
    }
  }

  lemma KeepWithinIdempotent(routes: seq<RouteOption>, maxFee: real)
    ensures KeepWithin(KeepWithin(routes, maxFee), maxFee) == KeepWithin(routes, maxFee)
  {
    KeepWithinAllWithin(KeepWithin(routes, maxFee), maxFee);
  }

  /** A route whose fee is in the "$d.cc" form the LI.FI adapter prints passes exactly when that many dollars are within the maximum. */
  lemma PrintedFeeWithin(r: RouteOption, cents: nat, maxFee: real)
    requires r.fee == Lifi.FormatFee(cents)
    ensures WithinFee(r, maxFee) <==> cents as real / 100.0 <= maxFee
  {
    Lifi.FormatFeeReadsBack(cents);
  }

  /** The maximum the recipient set, when it parses to a positive number. */
  function MaxFeeLimit(maxFee: Option<string>): (m: Option<real>)
    ensures m.Some? ==> m.value > 0.0 && Truthy(maxFee) && ParseFloat(maxFee.value) == m
    ensures m.None? ==> !Truthy(maxFee) || ParseFloat(maxFee.value).None? || ParseFloat(maxFee.value).value <= 0.0
  {
    if Truthy(maxFee) then
      match ParseFloat(maxFee.value)
      case Some(v) => if v > 0.0 then Some(v) else None
      case None => None
    else None
  }

  function MaxFeeNote(maxFee: string): string {
    "\n\nNote: No routes found within the recipient's preferred max fee of $" + maxFee + ". Showing all available routes."
  }

  /**
   * The routes after the recipient's maximum fee, and the note appended to
   * the message: the filtered list when it is not empty, otherwise the whole
   * list and the note — also when the list was empty to begin with.
   */
  function ApplyMaxFee(all: seq<RouteOption>, maxFee: Option<string>): (r: (seq<RouteOption>, string))
    ensures MaxFeeLimit(maxFee).None? ==> r == (all, "")
    ensures MaxFeeLimit(maxFee).Some? ==>
              var kept := KeepWithin(all, MaxFeeLimit(maxFee).value);
              r == if |kept| > 0 then (kept, "") else (all, MaxFeeNote(maxFee.value))
  {
    match MaxFeeLimit(maxFee)
    case None => (all, "")
    case Some(m) =>
      var kept := KeepWithin(all, m);
      if |kept| > 0 then (kept, "") else (all, MaxFeeNote(maxFee.value))
  }

  /** Either every route shown is within the maximum, or the list is unchanged and the note says so. */
  lemma MaxFeeOutcome(all: seq<RouteOption>, maxFee: Option<string>)
    requires MaxFeeLimit(maxFee).Some?
    ensures var (shown, note) := ApplyMaxFee(all, maxFee);
      || (note == "" && |shown| > 0 && forall r :: r in shown <==> r in all && WithinFee(r, MaxFeeLimit(maxFee).value))
      || (note == MaxFeeNote(maxFee.value) && shown == all && forall r :: r in all ==> !WithinFee(r, MaxFeeLimit(maxFee).value))
  {
    var m := MaxFeeLimit(maxFee).value;
    var kept := KeepWithin(all, m);
    if |kept| == 0 {
      assert kept == [];
    }
  }

  /** With a maximum fee set, an empty route list stays empty and still gets the note. */
  lemma EmptyListStillNoted(maxFee: Option<string>)
    requires MaxFeeLimit(maxFee).Some?
    ensures ApplyMaxFee([], maxFee) == ([], MaxFeeNote(maxFee.value))
  {
  }

  // ---- the whole response ----

  /** The profile returned beside the reply: present when there is an avatar or a description. */
  function ProfileOf(ens: EnsContext): (r: Option<EnsProfile>)
    ensures r.Some? <==> Truthy(ens.avatar) || Truthy(ens.description)
  {
    if Truthy(ens.avatar) || Truthy(ens.description) then Some(EnsProfile(ens.avatar, ens.description)) else None
  }

  /** The transfer and swap branch: routes from the providers, merged, then the fee filter. */
  function RoutesReply(p: Providers, body: ChatBody, intent: ParsedIntent, ens: EnsContext): (r: ChatResponse)
    requires !intent.action.PayX402?
    ensures r.Failure? <==> p.findRoutes(LifiRequest(intent, body, ens)).Err?
    ensures r.Failure? ==> r == Failure(500, p.findRoutes(LifiRequest(intent, body, ens)).message)
    ensures r.Reply? ==>
              var v4 := if intent.action.Swap? then p.findV4Routes(V4RequestFor(intent)) else [];
              var all := MergeRoutes(intent.action, v4, p.findRoutes(LifiRequest(intent, body, ens)).value);
              && r.routes == Some(ApplyMaxFee(all, ens.maxFee).0)
              && r.content == WithNote(ens.note, ActionMessage(intent, ens.resolvedAddress)) + ApplyMaxFee(all, ens.maxFee).1
              && r.intent == intent && r.resolvedAddress == ens.resolvedAddress && r.ensProfile == ProfileOf(ens)
  {
    var message := WithNote(ens.note, ActionMessage(intent, ens.resolvedAddress));
    match p.findRoutes(LifiRequest(intent, body, ens))
    case Err(e) => Failure(500, e)
    case Ok(lifi) =>
      var v4 := if intent.action.Swap? then p.findV4Routes(V4RequestFor(intent)) else [];
      var (shown, note) := ApplyMaxFee(MergeRoutes(intent.action, v4, lifi), ens.maxFee);
      Reply(message + note, intent, Some(shown), ens.resolvedAddress, ProfileOf(ens))
  }

  /**
   * A swap under an active maximum fee shows the v4 routes that pass, then
   * the LI.FI routes that pass, each list in its own order; when none passes,
   * both lists unfiltered.
   */
  lemma SwapFilterKeepsOrder(p: Providers, body: ChatBody, intent: ParsedIntent, ens: EnsContext)
    requires intent.action.Swap? && p.findRoutes(LifiRequest(intent, body, ens)).Ok? && MaxFeeLimit(ens.maxFee).Some?
    ensures var m := MaxFeeLimit(ens.maxFee).value;
      var v4 := p.findV4Routes(V4RequestFor(intent));
      var lifi := p.findRoutes(LifiRequest(intent, body, ens)).value;
      var r := RoutesReply(p, body, intent, ens);
      && r.Reply?
      && (|KeepWithin(v4, m)| + |KeepWithin(lifi, m)| > 0 ==> r.routes == Some(KeepWithin(v4, m) + KeepWithin(lifi, m)))
      && (|KeepWithin(v4, m)| + |KeepWithin(lifi, m)| == 0 ==> r.routes == Some(v4 + lifi))
  {
    var m := MaxFeeLimit(ens.maxFee).value;
    var v4 := p.findV4Routes(V4RequestFor(intent));
    var lifi := p.findRoutes(LifiRequest(intent, body, ens)).value;
    assert MergeRoutes(intent.action, v4, lifi) == v4 + lifi;
    KeepWithinAppend(v4, lifi, m);
  }

  /**
   * The handler after the rate-limit gate. `body` is `Err(message)` when the
   * request's JSON cannot be read.
   */
  function Respond(p: Providers, headers: Headers, body: Result<ChatBody>): (r: ChatResponse)
    ensures body.Err? ==> r == Failure(500, body.message)
    ensures body.Ok? && !Truthy(body.value.message) ==> r == Failure(400, MESSAGE_REQUIRED)
    ensures r.Failure? ==> r.status in {400, 500}
  {
    match body
    case Err(e) => Failure(500, e)
    case Ok(b) =>
      if !Truthy(b.message) then Failure(400, MESSAGE_REQUIRED)
      else match p.parseIntent(b.message.value)
        case Err(e) => Failure(500, e)
        case Ok(intent) =>
          match EnsStage(p, intent)
          case Err(e) => Failure(500, e)
          case Ok(Unresolved) =>
            Reply("Could not resolve ENS name \"" + intent.toAddress.value + "\". Please check the name and try again.",
                  intent, None, None, None)
          case Ok(Proceed(intent', ens)) =>
            if intent'.action.PayX402? then PaywallReply(p, headers, intent', ens) else RoutesReply(p, b, intent', ens)
  }

  /** The intent the message parses to, when the handler gets that far. */
  predicate ParsesTo(p: Providers, body: Result<ChatBody>, intent: ParsedIntent) {
    body.Ok? && Truthy(body.value.message) && p.parseIntent(body.value.message.value) == Ok(intent)
  }

  /** An ENS recipient that resolves to no address gets content and the intent, and no routes. */
  lemma UnresolvedNameHasNoRoutes(p: Providers, headers: Headers, body: Result<ChatBody>, intent: ParsedIntent)
    requires ParsesTo(p, body, intent) && IsEnsName(intent.toAddress)
    requires p.resolveEns(intent.toAddress.value).Ok? && !Truthy(p.resolveEns(intent.toAddress.value).value.address)
    ensures var r := Respond(p, headers, body);
      r.Reply? && r.intent == intent && r.routes.None? && r.resolvedAddress.None? && r.ensProfile.None?
      && StartsWith(r.content, "Could not resolve ENS name")
  {
    var r := Respond(p, headers, body);
    assert r.content[..26] == "Could not resolve ENS name";
  }

  /** The reply's intent is the parsed one with, at most, the empty destination chain and token filled in. */
  lemma PreferencesOnlyFillGaps(p: Providers, headers: Headers, body: Result<ChatBody>, intent: ParsedIntent)
    requires ParsesTo(p, body, intent)
    ensures var r := Respond(p, headers, body);
      r.Reply? ==>
        && r.intent.(toChain := intent.toChain, toToken := intent.toToken) == intent
        && (Truthy(intent.toChain) ==> r.intent.toChain == intent.toChain)
        && (intent.toToken != "" ==> r.intent.toToken == intent.toToken)
  {
  }

  /** Routes are offered for a transfer or a swap, and for a detected paywall (exactly one route). */
  lemma RoutesOnlyWhereOffered(p: Providers, headers: Headers, body: Result<ChatBody>, intent: ParsedIntent)
    requires ParsesTo(p, body, intent)
    ensures var r := Respond(p, headers, body);
      r.Reply? && r.routes.Some? ==>
        || !intent.action.PayX402?
        || (|r.routes.value| == 1 && r.routes.value[0].id == PAYWALL_ROUTE_ID && r.routes.value[0].provider == PAYWALL_PROVIDER)
  {
    var r := Respond(p, headers, body);
    if r.Reply? && r.routes.Some? && intent.action.PayX402? {
      var stage := EnsStage(p, intent);
      assert stage.Ok? && stage.value.Proceed?;
      var paying := stage.value.intent;
      assert paying.action.PayX402?;
      assert r == PaywallReply(p, headers, paying, stage.value.ens);
      assert Truthy(paying.url);
      var found := Probe(p.fetch(FullUrl(paying.url.value, headers)), ParseDetails);
      assert found.Some? && r.routes.value == [PaywallRoute(found.value)];
    }
  }

  /** A transfer or a swap that gets a reply always carries a route list, possibly empty. */
  lemma TransfersGetRoutes(p: Providers, headers: Headers, body: Result<ChatBody>, intent: ParsedIntent)
    requires ParsesTo(p, body, intent) && !intent.action.PayX402?
    ensures var r := Respond(p, headers, body);
      r.Reply? && r.routes.None? ==> IsEnsName(intent.toAddress) && StartsWith(r.content, "Could not resolve ENS name")
  {
    var r := Respond(p, headers, body);
    if r.Reply? && r.routes.None? {
      assert r.content[..26] == "Could not resolve ENS name";
    }
  }

  /**
   * `POST(req)` at time `now`: the client's call is counted first; a limited
   * client gets 429 and nothing else is evaluated.
   */
  method Post(limiter: RateLimit.RateLimiter, p: Providers, headers: Headers, body: Result<ChatBody>, now: int)
    returns (r: ChatResponse)
    modifies limiter
    ensures var key := ClientKey(headers.forwardedFor);
      limiter.windows == old(limiter.windows)[key := RateLimit.NextEntry(RateLimit.Find(old(limiter.windows), key), now)]
    ensures var key := ClientKey(headers.forwardedFor);
      r == if RateLimit.Limited(limiter.windows[key]) then Failure(429, TOO_MANY_REQUESTS) else Respond(p, headers, body)
  {
    var limited := limiter.IsRateLimited(ClientKey(headers.forwardedFor), now);
    if limited {
      return Failure(429, TOO_MANY_REQUESTS);
    }
    r := Respond(p, headers, body);
  }
}
