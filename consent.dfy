/** The cookie-consent state of the page: the visitor's decision, whether the
    banner and the settings dialog are open, and the one storage slot that
    remembers the decision across page loads. */
module Consent {

  datatype Option<T> = None | Some(value: T)

  /** One flag per cookie category. */
  datatype CookieConsent = CookieConsent(
    necessary: bool,
    analytics: bool,
    marketing: bool,
    functional: bool)

  const ConsentStorageKey: string := "cookie-consent"
  const ConsentVersion: string := "1.0"

  /** The decision the page starts with, and the one "necessary only" saves. */
  const NecessaryOnly := CookieConsent(true, false, false, false)

  /** The decision "accept all" saves. */
  const AllAccepted := CookieConsent(true, true, true, true)

  /** A storage item as the startup check sees it. JSON text is not modelled:
      an item is either the empty string (which the check treats like no item),
      text whose parsing fails or whose `.version` cannot be read, or a parsed
      value whose `version` is a string (`Some`) or absent or not a string
      (`None`). */
  datatype StoredValue =
    | EmptyText
    | Unparsable
    | Parsed(version: Option<string>, consent: CookieConsent)

  /** What saving `c` writes: `{version: "1.0", consent: c}`. */
  function Serialized(c: CookieConsent): StoredValue {
    Parsed(Some(ConsentVersion), c)
  }

  /** The startup check's reading of the slot: a decision exactly when the
      slot holds a record of the current version, and then that record's
      decision, taken as stored. Everything else reads as "no decision". */
  function StoredConsent(item: Option<StoredValue>): (r: Option<CookieConsent>)
    ensures r.Some? <==> exists c :: item == Some(Serialized(c))
    ensures r.Some? ==> item == Some(Serialized(r.value))
  {
    match item
    case None => None
    case Some(EmptyText) => None
    case Some(Unparsable) => None
    case Some(Parsed(version, c)) =>
      if version == Some(ConsentVersion) then
        assert item == Some(Serialized(c));
        Some(c)
      else
        None
  }

  /** A record of any other version, whatever decision it holds, reads as
      no decision. */
  lemma VersionGate(version: Option<string>, c: CookieConsent)
    requires version != Some(ConsentVersion)
    ensures StoredConsent(Some(Parsed(version, c))) == None
  {
  }

  /** Whatever a save writes reads back as the same decision. */
  lemma SaveThenLoad(items: map<string, StoredValue>, c: CookieConsent)
    ensures var saved := items[ConsentStorageKey := Serialized(c)];
            StoredConsent(Some(saved[ConsentStorageKey])) == Some(c)
  {
  }

  /** The startup check does not look at `necessary`: a current-version record
      that has it switched off is loaded as it is. */
  lemma LoadKeepsNecessaryOff(c: CookieConsent)
    requires !c.necessary
    ensures StoredConsent(Some(Parsed(Some("1.0"), c))) == Some(c)
  {
  }

  /** A snapshot of the consent state together with the storage it writes. */
  datatype Session = Session(
    showBanner: bool,
    showSettings: bool,
    consent: CookieConsent,
    items: map<string, StoredValue>)

  /** The visitor's actions once the page has loaded. */
  datatype Action =
    | AcceptAll
    | AcceptNecessary
    | SaveSelection
    | SetAnalytics(checked: bool)
    | SetMarketing(checked: bool)
    | SetFunctional(checked: bool)
    | OpenSettings
    | CloseSettings

  /** The actions that write storage. */
  predicate IsSave(a: Action) {
    a.AcceptAll? || a.AcceptNecessary? || a.SaveSelection?
  }

  /** The state a page starts from, before the startup check. */
  function Initial(items: map<string, StoredValue>): Session {
    Session(false, false, NecessaryOnly, items)
  }

  /** The startup check applied to a state. */
  function Load(s: Session): Session {
    var item := if ConsentStorageKey in s.items then Some(s.items[ConsentStorageKey]) else None;
    match StoredConsent(item)
    case Some(c) => s.(consent := c, showBanner := false)
    case None => s.(showBanner := true)
  }

  /** A fresh page load over the given storage. */
  function Startup(items: map<string, StoredValue>): Session {
    Load(Initial(items))
  }

  /** `saveConsent` on a state. */
  function Save(s: Session, c: CookieConsent): Session {
    Session(false, false, c, s.items[ConsentStorageKey := Serialized(c)])
  }

  /** One handler's effect. */
  function Step(s: Session, a: Action): Session {
    match a
    case AcceptAll => Save(s, AllAccepted)
    case AcceptNecessary => Save(s, NecessaryOnly)
    case SaveSelection => Save(s, s.consent)
    case SetAnalytics(b) => s.(consent := s.consent.(analytics := b))
    case SetMarketing(b) => s.(consent := s.consent.(marketing := b))
    case SetFunctional(b) => s.(consent := s.consent.(functional := b))
    case OpenSettings => s.(showSettings := true)
    case CloseSettings => s.(showSettings := false)
  }

  /** The handlers' effects in order. */
  function Run(s: Session, acts: seq<Action>): Session
    decreases |acts|
  {
    if acts == [] then s else Run(Step(s, acts[0]), acts[1..])
  }

  /** Every save writes the slot with the new decision, closes banner and
      dialog, and a page loaded afterwards restores that decision with the
      banner hidden. */
  lemma SaveReloads(s: Session, a: Action)
    requires IsSave(a)
    ensures var t := Step(s, a);
            !t.showBanner && !t.showSettings &&
            Startup(t.items).consent == t.consent && !Startup(t.items).showBanner
  {
    var t := Step(s, a);
    assert t.items[ConsentStorageKey] == Serialized(t.consent);
  }

  /** Once on, `necessary` stays on through any sequence of actions. */
  lemma {:induction false} RunKeepsNecessary(s: Session, acts: seq<Action>)
    requires s.consent.necessary
    ensures Run(s, acts).consent.necessary
    decreases |acts|
  {
    if acts != [] {
      RunKeepsNecessary(Step(s, acts[0]), acts[1..]);
    }
  }

  /** No sequence of actions reads or writes any key but the consent key. */
  lemma {:induction false} RunTouchesOnlyConsentKey(s: Session, acts: seq<Action>, key: string)
    requires key != ConsentStorageKey
    ensures key in Run(s, acts).items <==> key in s.items
    ensures key in s.items ==> Run(s, acts).items[key] == s.items[key]
    decreases |acts|
  {
    if acts != [] {
      RunTouchesOnlyConsentKey(Step(s, acts[0]), acts[1..], key);
    }
  }

  /** Within a session the banner never comes back once hidden. */
  lemma {:induction false} RunNeverReshowsBanner(s: Session, acts: seq<Action>)
    requires !s.showBanner
    ensures !Run(s, acts).showBanner
    decreases |acts|
  {
    if acts != [] {
      RunNeverReshowsBanner(Step(s, acts[0]), acts[1..]);
    }
  }

  /** Checkbox edits and opening or closing the dialog never write storage. */
  lemma {:induction false} EditsAreNotPersisted(s: Session, acts: seq<Action>)
    requires forall i :: 0 <= i < |acts| ==> !IsSave(acts[i])
    ensures Run(s, acts).items == s.items
    decreases |acts|
  {
    if acts != [] {
      EditsAreNotPersisted(Step(s, acts[0]), acts[1..]);
    }
  }

  /** Closing the dialog after an edit keeps the edit in memory and leaves
      storage as it was. */
  lemma CloseKeepsEdit(s: Session, b: bool)
    ensures var t := Run(s, [OpenSettings, SetAnalytics(b), CloseSettings]);
            t.consent.analytics == b && t.items == s.items && !t.showSettings
  {
    var acts := [OpenSettings, SetAnalytics(b), CloseSettings];
    var s1 := Step(s, OpenSettings);
    var s2 := Step(s1, SetAnalytics(b));
    assert acts[1..] == [SetAnalytics(b), CloseSettings];
    assert acts[1..][1..] == [CloseSettings];
    assert Run(s, acts) == Run(s2, [CloseSettings]);
  }

  /** The page's `localStorage`, a map from keys to items. */
  class LocalStorage {
    var items: map<string, StoredValue>

    constructor (items: map<string, StoredValue>)
      ensures this.items == items
    {
      this.items := items;
    }

    /** `getItem`: the item under `key`, or none. */
    function GetItem(key: string): Option<StoredValue>
      reads this
    {
      if key in items then Some(items[key]) else None
    }

    /** `setItem`: replaces the item under `key` and no other. */
    method SetItem(key: string, value: StoredValue)
      modifies this
      ensures items == old(items)[key := value]
    {
      items := items[key := value];
    }
  }

  /** The consent part of the page's state and its handlers. */
  class ConsentState {
    const storage: LocalStorage
    var showBanner: bool
    var showSettings: bool
    var consent: CookieConsent

    /** The initial state, before the startup check has run. */
    constructor (storage: LocalStorage)
      ensures this.storage == storage
      ensures !showBanner && !showSettings && consent == NecessaryOnly
      ensures Snapshot() == Initial(storage.items)
    {
      this.storage := storage;
      showBanner := false;
      showSettings := false;
      consent := NecessaryOnly;
    }

    /** The state as a value, for the lemmas about sequences of actions. */
    function Snapshot(): Session
      reads this, storage
    {
      Session(showBanner, showSettings, consent, storage.items)
    }

    /** The decision the slot currently holds, as the startup check reads it. */
    function Stored(): Option<CookieConsent>
      reads this, storage
    {
      StoredConsent(storage.GetItem(ConsentStorageKey))
    }

    /** The startup check: a current-version record becomes the decision and
        hides the banner; anything else keeps the decision and shows the
        banner. It neither writes storage nor touches the settings dialog. */
    method CheckStoredConsent()
      modifies this`showBanner, this`consent
      ensures Stored().Some? ==> consent == Stored().value && !showBanner
      ensures Stored().None? ==> consent == old(consent) && showBanner
      ensures Snapshot() == Load(old(Snapshot()))
    {
      var item := storage.GetItem(ConsentStorageKey);
      if item.Some? && item.value != EmptyText {
        match item.value {
          case Unparsable =>
            showBanner := true;
          case Parsed(version, c) =>
            if version == Some(ConsentVersion) {
              consent := c;
              showBanner := false;
            } else {
              showBanner := true;
            }
        }
      } else {
        showBanner := true;
      }
    }

    /** `saveConsent`: writes `{version: "1.0", consent: c}` under the consent
        key and nowhere else, makes `c` the decision and closes both the
        banner and the settings dialog, whatever their state. */
    method SaveConsent(c: CookieConsent)
      modifies this`showBanner, this`showSettings, this`consent, storage
      ensures storage.items == old(storage.items)[ConsentStorageKey := Serialized(c)]
      ensures Stored() == Some(c)
      ensures consent == c && !showBanner && !showSettings
      ensures Snapshot() == Save(old(Snapshot()), c)
    {
      storage.SetItem(ConsentStorageKey, Serialized(c));
      consent := c;
      showBanner := false;
      showSettings := false;
    }

    /** "Accept all": saves every category switched on. */
    method AcceptAll()
      modifies this`showBanner, this`showSettings, this`consent, storage
      ensures storage.items == old(storage.items)[ConsentStorageKey := Serialized(AllAccepted)]
      ensures consent == AllAccepted && consent.necessary
      ensures !showBanner && !showSettings
      ensures Snapshot() == Step(old(Snapshot()), Action.AcceptAll)
    {
      SaveConsent(AllAccepted);
    }

    /** "Necessary only": saves every optional category switched off. */
    method AcceptNecessary()
      modifies this`showBanner, this`showSettings, this`consent, storage
      ensures storage.items == old(storage.items)[ConsentStorageKey := Serialized(NecessaryOnly)]
      ensures consent == NecessaryOnly && consent.necessary
      ensures !consent.analytics && !consent.marketing && !consent.functional
      ensures !showBanner && !showSettings
      ensures Snapshot() == Step(old(Snapshot()), Action.AcceptNecessary)
    {
      SaveConsent(NecessaryOnly);
    }

    /** "Save selection": persists the decision as currently edited. */
    method SaveSelection()
      modifies this`showBanner, this`showSettings, this`consent, storage
      ensures storage.items == old(storage.items)[ConsentStorageKey := Serialized(old(consent))]
      ensures consent == old(consent)
      ensures !showBanner && !showSettings
      ensures Snapshot() == Step(old(Snapshot()), Action.SaveSelection)
    {
      SaveConsent(consent);
    }

    /** The analytics checkbox: sets that flag in the in-memory decision
        only; nothing is written until the selection is saved. */
    method SetAnalytics(checked: bool)
      modifies this`consent
      ensures consent.analytics == checked
      ensures consent.necessary == old(consent.necessary)
      ensures consent.marketing == old(consent.marketing)
      ensures consent.functional == old(consent.functional)
      ensures Snapshot() == Step(old(Snapshot()), Action.SetAnalytics(checked))
    {
      consent := consent.(analytics := checked);
    }

    /** The marketing checkbox. */
    method SetMarketing(checked: bool)
      modifies this`consent
      ensures consent.marketing == checked
      ensures consent.necessary == old(consent.necessary)
      ensures consent.analytics == old(consent.analytics)
      ensures consent.functional == old(consent.functional)
      ensures Snapshot() == Step(old(Snapshot()), Action.SetMarketing(checked))
    {
      consent := consent.(marketing := checked);
    }

    /** The functional checkbox. */
    method SetFunctional(checked: bool)
      modifies this`consent
      ensures consent.functional == checked
      ensures consent.necessary == old(consent.necessary)
      ensures consent.analytics == old(consent.analytics)
      ensures consent.marketing == old(consent.marketing)
      ensures Snapshot() == Step(old(Snapshot()), Action.SetFunctional(checked))
    {
      consent := consent.(functional := checked);
    }

    /** The footer link and the banner's settings button open the dialog. */
    method OpenSettings()
      modifies this`showSettings
      ensures showSettings
      ensures Snapshot() == Step(old(Snapshot()), Action.OpenSettings)
    {
      showSettings := true;
    }

    /** The dialog's close button hides it. Edits made in the dialog stay
        in the in-memory decision; they are only not written to storage. */
    method CloseSettings()
      modifies this`showSettings
      ensures !showSettings
      ensures Snapshot() == Step(old(Snapshot()), Action.CloseSettings)
    {
      showSettings := false;
    }
  }
}
