/**
  Start-up of the hotkeys: each configured binding is parsed and registered with the
  front-end message its action names; a binding that does not parse is skipped.
*/
module InitHotkeys {
  import opened Wrappers
  import opened Frontend
  import opened HotkeyStructs
  import opened HotkeyParsing
  import opened Hotkeys

  /** `HotkeyAction`: what a hotkey asks the front end to do. */
  datatype HotkeyAction = ShowHide | ShowAction | HideAction | ShowWith

  /** `HotkeyConfig`: one configured hotkey. */
  datatype HotkeyConfig = HotkeyConfig(binding: string, action: HotkeyAction, query: Option<string>)

  /**
    `get_control_message`: the message of the action; only `ShowWith` carries a query,
    the configured one or the empty string when none is configured.
  */
  function GetControlMessage(hotkey: HotkeyConfig): (m: FrontendMessage)
    ensures !m.Exit?
    ensures m.ShowOrHide? <==> hotkey.action == ShowHide
    ensures m.Show? <==> hotkey.action == ShowAction
    ensures m.Hide? <==> hotkey.action == HideAction
    ensures m.ShowWithQuery? <==> hotkey.action == ShowWith
    ensures m.ShowWithQuery? && hotkey.query.Some? ==> m.query == hotkey.query.value
    ensures m.ShowWithQuery? && hotkey.query.None? ==> m.query == ""
  {
    match hotkey.action
    case ShowHide => ShowOrHide
    case ShowAction => Show
    case HideAction => Hide
    case ShowWith => ShowWithQuery(if hotkey.query.Some? then hotkey.query.value else "")
  }

  /** Two `ShowWith` hotkeys send the same message exactly when their queries read the same. */
  lemma ShowWithQueries(h1: HotkeyConfig, h2: HotkeyConfig)
    requires h1.action == ShowWith && h2.action == ShowWith
    ensures GetControlMessage(h1) == GetControlMessage(h2)
        <==> (if h1.query.Some? then h1.query.value else "") == (if h2.query.Some? then h2.query.value else "")
  {
  }

  /**
    A binding parser. The registration loop uses `Parse`; the lemmas below hold for any
    parser, which keeps their proofs independent of the key-name table.
  */
  type Parser = string -> Result<ParsedBinding, ParseError>

  /** The hotkey a configuration registers, or nothing when its binding does not parse. */
  function HotkeyOf(hotkey: HotkeyConfig, parse: Parser): (r: seq<Hotkey<FrontendMessage>>)
    ensures |r| <= 1
    ensures r == [] <==> parse(hotkey.binding).Failure?
    ensures r != [] ==> r[0] == Hotkey(parse(hotkey.binding).value.modifiers, parse(hotkey.binding).value.key, GetControlMessage(hotkey))
  {
    match parse(hotkey.binding)
    case Success(p) => [Hotkey(p.modifiers, p.key, GetControlMessage(hotkey))]
    case Failure(_) => []
  }

  /** The hotkeys of the configurations whose bindings parse, in configuration order. */
  function ValidHotkeys(configs: seq<HotkeyConfig>, parse: Parser): (r: seq<Hotkey<FrontendMessage>>)
    ensures |r| <= |configs|
  {
    if configs == [] then []
    else ValidHotkeys(configs[..|configs| - 1], parse) + HotkeyOf(configs[|configs| - 1], parse)
  }

  /** The configurations are independent: the hotkeys of a concatenation are the concatenation. */
  lemma {:induction false} ValidHotkeysAppend(a: seq<HotkeyConfig>, b: seq<HotkeyConfig>, parse: Parser)
    ensures ValidHotkeys(a + b, parse) == ValidHotkeys(a, parse) + ValidHotkeys(b, parse)
    decreases |b|
  {
    if b == [] {
      assert a + b == a;
    } else {
      var b' := b[..|b| - 1];
      assert (a + b)[..|a + b| - 1] == a + b';
      assert (a + b)[|a + b| - 1] == b[|b| - 1];
      ValidHotkeysAppend(a, b', parse);
    }
  }

  /** A binding that does not parse is skipped and the ones after it are still registered. */
  lemma InvalidSkipped(before: seq<HotkeyConfig>, bad: HotkeyConfig, after: seq<HotkeyConfig>, parse: Parser)
    requires parse(bad.binding).Failure?
    ensures ValidHotkeys(before + [bad] + after, parse) == ValidHotkeys(before, parse) + ValidHotkeys(after, parse)
  {
    ValidHotkeysAppend(before + [bad], after, parse);
    ValidHotkeysSnoc(before, bad, parse);
  }

  lemma ValidHotkeysSnoc(before: seq<HotkeyConfig>, c: HotkeyConfig, parse: Parser)
    ensures ValidHotkeys(before + [c], parse) == ValidHotkeys(before, parse) + HotkeyOf(c, parse)
  {
    assert (before + [c])[..|before|] == before;
  }

  /** When every binding parses, there is one hotkey per configuration, in the same order. */
  lemma {:induction false} AllValid(configs: seq<HotkeyConfig>, parse: Parser)
    requires forall k :: 0 <= k < |configs| ==> parse(configs[k].binding).Success?
    ensures |ValidHotkeys(configs, parse)| == |configs|
    ensures forall k :: 0 <= k < |configs| ==> ValidHotkeys(configs, parse)[k] == HotkeyOf(configs[k], parse)[0]
  {
    if configs != [] {
      var init := configs[..|configs| - 1];
      AllValid(init, parse);
      assert forall k :: 0 <= k < |init| ==> init[k] == configs[k];
    }
  }

  /**
    `hotkeys` without the thread it spawns: registers every configured binding in turn,
    skipping the ones that do not parse.
  */
  method RegisterHotkeys(configs: seq<HotkeyConfig>) returns (listener: Listener<FrontendMessage>)
    ensures fresh(listener)
    ensures listener.hotkeys == ValidHotkeys(configs, Parse)
  {
    listener := new Listener<FrontendMessage>();
    var i := 0;
    while i < |configs|
      invariant 0 <= i <= |configs|
      invariant listener.hotkeys == ValidHotkeys(configs[..i], Parse)
    {
      var hotkey := configs[i];
      assert configs[..i + 1][..i] == configs[..i];
      var _ := listener.RegisterEmacs(hotkey.binding, GetControlMessage(hotkey));
      i := i + 1;
    }
    assert configs[..i] == configs;
  }
}
