/**
 * The language record and the registry of internal/i18n/lang.go. The
 * package-level `registry` map becomes the field of a `Registry` object.
 */
module Lang {
  import opened Options

  /** `[7]string`, indexed by weekday with Sunday at 0. */
  type DayAbbreviations = s: seq<string> | |s| == 7 witness ["", "", "", "", "", "", ""]

  /** `[16]string`, the compass points clockwise from north. */
  type Cardinals = s: seq<string> | |s| == 16
    witness ["", "", "", "", "", "", "", "", "", "", "", "", "", "", "", ""]

  /** `Lang` (lang.go:4-17): every translatable string of one language. */
  datatype Lang = Lang(
    code: string,
    labelDay: string,
    labelHi: string,
    labelLo: string,
    labelCond: string,
    labelHumidity: string,
    labelWind: string,
    labelFeels: string,
    dayAbbreviations: DayAbbreviations,
    cardinals: Cardinals,
    conditions: map<int, string>,
    tipManualLocation: string)

  /** `registry` (lang.go:19) with `register` (lang.go:21-23). */
  class Registry {
    var entries: map<string, Lang>

    /** Each record is stored under its own code, as `register` stores it. */
    ghost predicate Valid()
      reads this
    {
      forall c | c in entries :: entries[c].code == c
    }

    constructor ()
      ensures entries == map[] && Valid()
    {
      entries := map[];
    }

    /** `register(l)`: `registry[l.Code] = l`. */
    method Register(l: Lang)
      requires Valid()
      modifies this
      ensures Valid()
      ensures entries == old(entries)[l.code := l]
      ensures forall c | c != l.code :: (c in entries <==> c in old(entries)) && (c in entries ==> entries[c] == old(entries)[c])
    {
      entries := entries[l.code := l];
    }

    /** The comma-ok lookup `l, ok := registry[code]`. */
    function Lookup(code: string): (r: Option<Lang>)
      reads this
      ensures r.Some? <==> code in entries
      ensures r.Some? ==> r.value == entries[code]
    {
      if code in entries then Some(entries[code]) else None
    }
  }

  /** After a registration the record is found under its code. */
  method RegisterThenLookup(l: Lang) returns (found: Option<Lang>)
    ensures found == Some(l)
  {
    var r := new Registry();
    r.Register(l);
    found := r.Lookup(l.code);
  }

  /** Registering a record leaves the record of every other code where it was. */
  method RegisterLeavesOthers(first: Lang, second: Lang) returns (kept: Option<Lang>)
    requires first.code != second.code
    ensures kept == Some(first)
  {
    var r := new Registry();
    r.Register(first);
    r.Register(second);
    kept := r.Lookup(first.code);
  }

  /** Registering the same code twice keeps the later record. */
  method RegisterTwiceKeepsLater(first: Lang, second: Lang) returns (kept: Option<Lang>)
    requires first.code == second.code
    ensures kept == Some(second)
  {
    var r := new Registry();
    r.Register(first);
    r.Register(second);
    kept := r.Lookup(first.code);
  }
}
