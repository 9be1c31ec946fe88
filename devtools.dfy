/**
 * The DevTools settings panel: the hard-coded fallback tier of its settings, the
 * minimal diff written into a shareable URL, the "Customize Endpoint" list, the
 * edge flags that place the panel, and the component state its event handlers change.
 */
module DevTools {
  import opened Wrappers

  // ---------------------------------------------------------------------------
  // Custom responses
  // ---------------------------------------------------------------------------

  /** A per-endpoint override the mock worker applies: delay, HTTP status and body. */
  datatype CustomResponse = CustomResponse(endpointName: string, delay: int, status: int, response: string)

  /** The fields a newly customised endpoint starts with (`customResponseDefaults`). */
  datatype ResponseDefaults = ResponseDefaults(delay: int, status: int, response: string)

  const customResponseDefaults := ResponseDefaults(0, 200, "")

  /**
   * `customResponses.some(h => h.endpointName === e)`, scanning from the left:
   * true exactly when some custom response already targets `e`.
   */
  predicate IsCustomized(customResponses: seq<CustomResponse>, e: string): (b: bool)
    ensures b <==> exists i :: 0 <= i < |customResponses| && customResponses[i].endpointName == e
  {
    if customResponses == [] then false
    else
      assert forall i :: 0 < i < |customResponses| ==> customResponses[i] == customResponses[1..][i - 1];
      customResponses[0].endpointName == e || IsCustomized(customResponses[1..], e)
  }

  /** No two custom responses target the same endpoint. */
  predicate DistinctEndpointNames(customResponses: seq<CustomResponse>) {
    forall i, j :: 0 <= i < j < |customResponses| ==>
      customResponses[i].endpointName != customResponses[j].endpointName
  }

  /**
   * The options of the "Customize Endpoint" select: the configured endpoints
   * that no custom response targets yet, in their configured order.
   */
  function OfferedEndpoints(endpoints: seq<string>, customResponses: seq<CustomResponse>): (r: seq<string>)
    ensures |r| <= |endpoints|
    ensures forall e :: e in r <==> e in endpoints && !IsCustomized(customResponses, e)
  {
    if endpoints == [] then []
    else
      var rest := OfferedEndpoints(endpoints[1..], customResponses);
      assert forall e :: e in endpoints <==> e == endpoints[0] || e in endpoints[1..];
      if IsCustomized(customResponses, endpoints[0]) then rest else [endpoints[0]] + rest
  }

  /** The filter keeps order: it distributes over concatenation of the endpoint list. */
  lemma {:induction false} OfferedEndpointsAppend(a: seq<string>, b: seq<string>, customResponses: seq<CustomResponse>)
    ensures OfferedEndpoints(a + b, customResponses)
         == OfferedEndpoints(a, customResponses) + OfferedEndpoints(b, customResponses)
  {
    if a == [] {
      assert a + b == b;
    } else {
      assert (a + b)[0] == a[0] && (a + b)[1..] == a[1..] + b;
      OfferedEndpointsAppend(a[1..], b, customResponses);
    }
  }

  /** A single endpoint is offered exactly when it is not customised. */
  lemma OfferedEndpointsSingle(e: string, customResponses: seq<CustomResponse>)
    ensures OfferedEndpoints([e], customResponses) == if IsCustomized(customResponses, e) then [] else [e]
  {
  }

  /** `s` with every occurrence of `x` removed, order kept. */
  function Without(s: seq<string>, x: string): (r: seq<string>)
    ensures forall e :: e in r <==> e in s && e != x
  {
    if s == [] then []
    else
      assert forall e :: e in s <==> e == s[0] || e in s[1..];
      (if s[0] == x then [] else [s[0]]) + Without(s[1..], x)
  }

  /**
   * The selected-endpoint handler: append one entry for `endpointName`, filled
   * with `customResponseDefaults`, after the existing ones.
   */
  function AddCustomResponse(customResponses: seq<CustomResponse>, endpointName: string): (r: seq<CustomResponse>)
    ensures |r| == |customResponses| + 1
    ensures r[..|customResponses|] == customResponses
    ensures r[|customResponses|].endpointName == endpointName
    ensures r[|customResponses|].delay == 0 && r[|customResponses|].status == 200 && r[|customResponses|].response == ""
  {
    customResponses + [CustomResponse(endpointName,
                                      customResponseDefaults.delay,
                                      customResponseDefaults.status,
                                      customResponseDefaults.response)]
  }

  /** After adding `x`, the offered list is the old one without `x`: the chosen option disappears. */
  lemma {:induction false} OfferedAfterAdd(endpoints: seq<string>, customResponses: seq<CustomResponse>, x: string)
    ensures OfferedEndpoints(endpoints, AddCustomResponse(customResponses, x))
         == Without(OfferedEndpoints(endpoints, customResponses), x)
  {
    var added := AddCustomResponse(customResponses, x);
    if endpoints != [] {
      OfferedAfterAdd(endpoints[1..], customResponses, x);
      var e := endpoints[0];
      assert IsCustomized(added, e) <==> IsCustomized(customResponses, e) || e == x by {
        if IsCustomized(customResponses, e) {
          var i :| 0 <= i < |customResponses| && customResponses[i].endpointName == e;
          assert added[i] == customResponses[i];
        }
        if IsCustomized(added, e) && e != x {
          var i :| 0 <= i < |added| && added[i].endpointName == e;
          assert i < |customResponses| && added[i] == customResponses[i];
        }
        if e == x {
          assert added[|customResponses|].endpointName == e;
        }
      }
      var offered := OfferedEndpoints(endpoints, customResponses);
      if !IsCustomized(customResponses, e) {
        assert offered[0] == e && offered[1..] == OfferedEndpoints(endpoints[1..], customResponses);
      }
    }
  }

  /** Choosing an offered endpoint keeps the endpoint names distinct. */
  lemma AddOfferedKeepsDistinct(endpoints: seq<string>, customResponses: seq<CustomResponse>, x: string)
    requires DistinctEndpointNames(customResponses)
    requires x in OfferedEndpoints(endpoints, customResponses)
    ensures DistinctEndpointNames(AddCustomResponse(customResponses, x))
  {
  }

  // ---------------------------------------------------------------------------
  // Defaults
  // ---------------------------------------------------------------------------

  /** The `defaults` prop: every preference may be left unset. */
  datatype PartialDefaults = PartialDefaults(
    closeOnOutsideClick: Option<bool>,
    closeViaEscapeKey: Option<bool>,
    delay: Option<int>,
    openByDefault: Option<bool>,
    position: Option<string>)

  /** A fully resolved set of defaults (`DevToolsDefaults`). */
  datatype Defaults = Defaults(
    closeOnOutsideClick: bool,
    closeViaEscapeKey: bool,
    delay: int,
    openByDefault: bool,
    position: string)

  /** The hard-coded values used when the caller states no preference. */
  const fallbackDefaults := Defaults(false, true, 0, true, "top-left")

  const noPreferences := PartialDefaults(None, None, None, None, None)

  /**
   * `getDefaults`: each setting takes the caller's preference when one is given
   * and the hard-coded fallback otherwise. An absent `defaults` prop states no
   * preference at all (`rest.defaults?.x` is then undefined).
   */
  function GetDefaults(given: Option<PartialDefaults>): (d: Defaults)
    ensures var p := given.GetOr(noPreferences);
      && (if p.closeOnOutsideClick.Some? then d.closeOnOutsideClick == p.closeOnOutsideClick.value else d.closeOnOutsideClick == false)
      && (if p.closeViaEscapeKey.Some? then d.closeViaEscapeKey == p.closeViaEscapeKey.value else d.closeViaEscapeKey == true)
      && (if p.delay.Some? then d.delay == p.delay.value else d.delay == 0)
      && (if p.openByDefault.Some? then d.openByDefault == p.openByDefault.value else d.openByDefault == true)
      && (if p.position.Some? then d.position == p.position.value else d.position == "top-left")
  {
    var p := given.GetOr(noPreferences);
    Defaults(
      p.closeOnOutsideClick.GetOr(fallbackDefaults.closeOnOutsideClick),
      p.closeViaEscapeKey.GetOr(fallbackDefaults.closeViaEscapeKey),
      p.delay.GetOr(fallbackDefaults.delay),
      p.openByDefault.GetOr(fallbackDefaults.openByDefault),
      p.position.GetOr(fallbackDefaults.position))
  }

  /** Every preference stated as itself. */
  function AsPreferences(d: Defaults): (p: PartialDefaults) {
    PartialDefaults(Some(d.closeOnOutsideClick), Some(d.closeViaEscapeKey), Some(d.delay),
                    Some(d.openByDefault), Some(d.position))
  }

  /** A caller that states every preference gets exactly those back. */
  lemma GetDefaultsAllStated(d: Defaults)
    ensures GetDefaults(Some(AsPreferences(d))) == d
  {
  }

  /** No `defaults` prop and an empty one resolve alike, to the hard-coded fallbacks. */
  lemma GetDefaultsNoneStated()
    ensures GetDefaults(None) == GetDefaults(Some(noPreferences)) == fallbackDefaults
  {
  }

  // ---------------------------------------------------------------------------
  // Changed settings (the shareable URL)
  // ---------------------------------------------------------------------------

  /** The current value of every setting the panel keeps. */
  datatype Settings = Settings(
    closeOnOutsideClick: bool,
    closeViaEscapeKey: bool,
    delay: int,
    openByDefault: bool,
    position: string,
    customResponses: seq<CustomResponse>)

  /** `Partial<DevToolsConfig>`: the keys written into the URL; an absent key is `None`. */
  datatype UrlConfig = UrlConfig(
    position: Option<string>,
    openByDefault: Option<bool>,
    delay: Option<int>,
    customResponses: Option<seq<CustomResponse>>,
    closeOnOutsideClick: Option<bool>,
    closeViaEscapeKey: Option<bool>)

  const emptyUrlConfig := UrlConfig(None, None, None, None, None, None)

  /**
   * `getChangedSettings`: a key is present exactly when its setting differs from
   * the default, and then holds the current value; custom responses are present
   * exactly when there are some. The two closing preferences are never written.
   */
  function GetChangedSettings(defaults: Defaults, s: Settings): (u: UrlConfig)
    ensures u.position.Some? <==> s.position != defaults.position
    ensures u.position.Some? ==> u.position.value == s.position
    ensures u.openByDefault.Some? <==> s.openByDefault != defaults.openByDefault
    ensures u.openByDefault.Some? ==> u.openByDefault.value == s.openByDefault
    ensures u.delay.Some? <==> s.delay != defaults.delay
    ensures u.delay.Some? ==> u.delay.value == s.delay
    ensures u.customResponses.Some? <==> |s.customResponses| > 0
    ensures u.customResponses.Some? ==> u.customResponses.value == s.customResponses
    ensures u.closeOnOutsideClick.None? && u.closeViaEscapeKey.None?
  {
    var u0 := emptyUrlConfig;
    var u1 := if defaults.position != s.position then u0.(position := Some(s.position)) else u0;
    var u2 := if defaults.openByDefault != s.openByDefault then u1.(openByDefault := Some(s.openByDefault)) else u1;
    var u3 := if defaults.delay != s.delay then u2.(delay := Some(s.delay)) else u2;
    if |s.customResponses| > 0 then u3.(customResponses := Some(s.customResponses)) else u3
  }

  /** The URL carries nothing exactly when every URL-carried setting is at its default. */
  lemma ChangedSettingsEmpty(defaults: Defaults, s: Settings)
    ensures GetChangedSettings(defaults, s) == emptyUrlConfig
        <==> s.position == defaults.position && s.openByDefault == defaults.openByDefault
             && s.delay == defaults.delay && s.customResponses == []
  {
  }

  /** Reading a URL over the defaults: a present key wins, an absent one falls back. */
  function ReadUrlConfig(defaults: Defaults, u: UrlConfig): (s: Settings) {
    Settings(
      u.closeOnOutsideClick.GetOr(defaults.closeOnOutsideClick),
      u.closeViaEscapeKey.GetOr(defaults.closeViaEscapeKey),
      u.delay.GetOr(defaults.delay),
      u.openByDefault.GetOr(defaults.openByDefault),
      u.position.GetOr(defaults.position),
      u.customResponses.GetOr([]))
  }

  /**
   * The diff loses nothing it carries: read back over the same defaults it
   * restores position, openByDefault, delay and the custom responses, while the
   * two closing preferences come back as their defaults whatever they were.
   */
  lemma ChangedSettingsRoundTrip(defaults: Defaults, s: Settings)
    ensures var r := ReadUrlConfig(defaults, GetChangedSettings(defaults, s));
      && r.position == s.position && r.openByDefault == s.openByDefault
      && r.delay == s.delay && r.customResponses == s.customResponses
      && r.closeOnOutsideClick == defaults.closeOnOutsideClick
      && r.closeViaEscapeKey == defaults.closeViaEscapeKey
  {
  }

  /** No key is written that could be dropped: each present key differs from what an absent one reads as. */
  lemma ChangedSettingsMinimal(defaults: Defaults, s: Settings)
    ensures var u := GetChangedSettings(defaults, s);
      && (u.position.Some? ==> u.position.value != defaults.position)
      && (u.openByDefault.Some? ==> u.openByDefault.value != defaults.openByDefault)
      && (u.delay.Some? ==> u.delay.value != defaults.delay)
      && (u.customResponses.Some? ==> u.customResponses.value != [])
  {
  }

  // ---------------------------------------------------------------------------
  // Position flags
  // ---------------------------------------------------------------------------

  /** `p` is a prefix of `s`. */
  predicate StartsWith(s: string, p: string) {
    |p| <= |s| && s[..|p|] == p
  }

  /** `t` occurs in `s` starting at index `i`. */
  ghost predicate OccursAt(s: string, t: string, i: int) {
    0 <= i <= |s| - |t| && s[i..i + |t|] == t
  }

  /** `t` occurs in `s` at some index: the reference meaning of `s.includes(t)`. */
  ghost predicate Occurs(s: string, t: string) {
    exists i :: OccursAt(s, t, i)
  }

  lemma OccursStep(s: string, t: string)
    ensures Occurs(s, t) <==> StartsWith(s, t) || (|s| > 0 && Occurs(s[1..], t))
  {
    if Occurs(s, t) && !StartsWith(s, t) {
      var i :| OccursAt(s, t, i);
      assert i != 0;
      assert s[1..][i - 1..i - 1 + |t|] == s[i..i + |t|];
      assert OccursAt(s[1..], t, i - 1);
    }
    if StartsWith(s, t) {
      assert OccursAt(s, t, 0);
    }
    if |s| > 0 && Occurs(s[1..], t) {
      var i :| OccursAt(s[1..], t, i);
      assert s[i + 1..i + 1 + |t|] == s[1..][i..i + |t|];
      assert OccursAt(s, t, i + 1);
    }
  }

  /** A character of `t` that `s` lacks rules out every occurrence. */
  lemma MissingCharNoOccurrence(s: string, t: string, k: int)
    requires 0 <= k < |t| && t[k] !in s
    ensures !Occurs(s, t)
  {
  }

  /** `s.includes(t)`, scanning the start positions from left to right. */
  function Contains(s: string, t: string): (b: bool)
    ensures b <==> Occurs(s, t)
    decreases |s|
  {
    OccursStep(s, t);
    StartsWith(s, t) || (|s| > 0 && Contains(s[1..], t))
  }

  /** The four edge classes of the panel's root element. */
  datatype EdgeFlags = EdgeFlags(bottom: bool, top: bool, right: bool, left: bool)

  /** Each edge class is set exactly when the position names that edge. */
  function PositionFlags(position: string): (f: EdgeFlags)
    ensures f.bottom <==> Occurs(position, "bottom")
    ensures f.top <==> Occurs(position, "top")
    ensures f.right <==> Occurs(position, "right")
    ensures f.left <==> Occurs(position, "left")
  {
    EdgeFlags(Contains(position, "bottom"), Contains(position, "top"),
              Contains(position, "right"), Contains(position, "left"))
  }

  /** The positions the "Position" select offers. */
  const selectablePositions: seq<string> := ["top-left", "top-right", "bottom-left", "bottom-right"]

  /**
   * A selectable position pins the panel to exactly one vertical and one
   * horizontal edge: the ones its name starts and ends with.
   */
  lemma SelectablePositionFlags(p: string)
    requires p in selectablePositions
    ensures var f := PositionFlags(p);
      && (f.top <==> !f.bottom) && (f.left <==> !f.right)
      && (f.top <==> p == "top-left" || p == "top-right")
      && (f.left <==> p == "top-left" || p == "bottom-left")
  {
    if p == "top-left" {
      assert OccursAt(p, "top", 0) && OccursAt(p, "left", 4);
      MissingCharNoOccurrence(p, "bottom", 0);
      MissingCharNoOccurrence(p, "right", 0);
    } else if p == "top-right" {
      assert OccursAt(p, "top", 0) && OccursAt(p, "right", 4);
      MissingCharNoOccurrence(p, "bottom", 0);
      MissingCharNoOccurrence(p, "left", 0);
    } else if p == "bottom-left" {
      assert OccursAt(p, "bottom", 0) && OccursAt(p, "left", 7);
      MissingCharNoOccurrence(p, "top", 2);
      MissingCharNoOccurrence(p, "right", 0);
    } else {
      assert OccursAt(p, "bottom", 0) && OccursAt(p, "right", 7);
      MissingCharNoOccurrence(p, "top", 2);
      MissingCharNoOccurrence(p, "left", 0);
    }
  }

  /** The hard-coded default position is one of the selectable ones. */
  lemma FallbackPositionSelectable()
    ensures fallbackDefaults.position in selectablePositions
  {
  }

  // ---------------------------------------------------------------------------
  // Panel state
  // ---------------------------------------------------------------------------

  /**
   * The state of one DevTools component: the persisted settings, the open flag
   * and the custom responses, with the defaults and the configured endpoints
   * fixed by its props.
   */
  class Panel {
    const defaults: Defaults
    const endpoints: seq<string>

    var openByDefault: bool
    var isOpen: bool
    var closeOnOutsideClick: bool
    var closeViaEscapeKey: bool
    var delay: int
    var position: string
    var customResponses: seq<CustomResponse>

    /**
     * The custom responses target distinct endpoints. The source renders one
     * form per custom response keyed by its endpoint name, so React needs the
     * names to be unique; offering only uncustomised endpoints is what keeps them so.
     */
    ghost predicate Valid()
      reads this
    {
      DistinctEndpointNames(customResponses)
    }

    /**
     * First mount with nothing in the URL or in storage: every setting takes its
     * default, there are no custom responses, and the panel is open exactly when
     * it is open by default.
     */
    constructor (given: Option<PartialDefaults>, endpoints: seq<string>)
      ensures defaults == GetDefaults(given) && this.endpoints == endpoints
      ensures openByDefault == defaults.openByDefault && isOpen == openByDefault
      ensures closeOnOutsideClick == defaults.closeOnOutsideClick
      ensures closeViaEscapeKey == defaults.closeViaEscapeKey
      ensures delay == defaults.delay && position == defaults.position
      ensures customResponses == []
      ensures Valid()
    {
      var d := GetDefaults(given);
      defaults := d;
      this.endpoints := endpoints;
      openByDefault := d.openByDefault;
      isOpen := d.openByDefault;
      closeOnOutsideClick := d.closeOnOutsideClick;
      closeViaEscapeKey := d.closeViaEscapeKey;
      delay := d.delay;
      position := d.position;
      customResponses := [];
    }

    function CurrentSettings(): (s: Settings)
      reads this
    {
      Settings(closeOnOutsideClick, closeViaEscapeKey, delay, openByDefault, position, customResponses)
    }

    /** What "Copy Settings" puts into the URL. */
    function ChangedSettings(): (u: UrlConfig)
      reads this
      ensures u == emptyUrlConfig <==> position == defaults.position && openByDefault == defaults.openByDefault
                                       && delay == defaults.delay && customResponses == []
    {
      ChangedSettingsEmpty(defaults, CurrentSettings());
      GetChangedSettings(defaults, CurrentSettings())
    }

    /** The options of the "Customize Endpoint" select. */
    function Offered(): (r: seq<string>)
      reads this
      ensures forall e :: e in r <==> e in endpoints && !IsCustomized(customResponses, e)
    {
      OfferedEndpoints(endpoints, customResponses)
    }

    /**
     * The edge classes of the panel's root element: each is set exactly when the
     * position names its edge, and a position chosen in the select pins the panel
     * to one vertical and one horizontal edge.
     */
    function Flags(): (f: EdgeFlags)
      reads this
      ensures f.bottom <==> Occurs(position, "bottom")
      ensures f.top <==> Occurs(position, "top")
      ensures f.right <==> Occurs(position, "right")
      ensures f.left <==> Occurs(position, "left")
      ensures position in selectablePositions ==> (f.top <==> !f.bottom) && (f.left <==> !f.right)
    {
      if position in selectablePositions then
        SelectablePositionFlags(position);
        PositionFlags(position)
      else
        PositionFlags(position)
    }

    /** The open and close buttons: flip the open flag. */
    method ToggleOpen()
      modifies this`isOpen
      ensures isOpen == !old(isOpen)
    {
      isOpen := !isOpen;
    }

    /** The Escape key closes the panel only when closing via Escape is enabled. */
    method PressEscape()
      modifies this`isOpen
      ensures closeViaEscapeKey ==> !isOpen
      ensures !closeViaEscapeKey ==> isOpen == old(isOpen)
    {
      if closeViaEscapeKey {
        isOpen := false;
      }
    }

    /** A click outside the panel closes it only when closing on outside click is enabled. */
    method ClickOutside()
      modifies this`isOpen
      ensures closeOnOutsideClick ==> !isOpen
      ensures !closeOnOutsideClick ==> isOpen == old(isOpen)
    {
      if closeOnOutsideClick {
        isOpen := false;
      }
    }

    /**
     * Choosing an endpoint in "Customize Endpoint" appends one default-filled
     * custom response; when the choice is one of the offered endpoints the names
     * stay distinct and the choice leaves the offered list.
     */
    method SelectEndpoint(endpointName: string)
      modifies this`customResponses
      ensures customResponses == AddCustomResponse(old(customResponses), endpointName)
      ensures old(Valid()) && endpointName in old(Offered()) ==> Valid()
      ensures Offered() == Without(old(Offered()), endpointName)
    {
      if DistinctEndpointNames(customResponses) && endpointName in Offered() {
        AddOfferedKeepsDistinct(endpoints, customResponses, endpointName);
      }
      OfferedAfterAdd(endpoints, customResponses, endpointName);
      customResponses := AddCustomResponse(customResponses, endpointName);
    }

    /** The "Global Delay" input. */
    method SetDelay(d: int)
      modifies this`delay
      ensures delay == d
    {
      delay := d;
    }

    /** The "Position" select. */
    method SetPosition(p: string)
      modifies this`position
      ensures position == p
    {
      position := p;
    }

    /** The "Open by default" checkbox: flips the persisted preference, not the open flag. */
    method ToggleOpenByDefault()
      modifies this`openByDefault
      ensures openByDefault == !old(openByDefault)
    {
      openByDefault := !openByDefault;
    }

    /** The "Close via escape key" checkbox. */
    method ToggleCloseViaEscapeKey()
      modifies this`closeViaEscapeKey
      ensures closeViaEscapeKey == !old(closeViaEscapeKey)
    {
      closeViaEscapeKey := !closeViaEscapeKey;
    }

    /** The "Close on outside click" checkbox. */
    method ToggleCloseOnOutsideClick()
      modifies this`closeOnOutsideClick
      ensures closeOnOutsideClick == !old(closeOnOutsideClick)
    {
      closeOnOutsideClick := !closeOnOutsideClick;
    }
  }
}
