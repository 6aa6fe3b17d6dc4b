/** One entry of a person's or a unit's log: an optional date, a description
    that is never null, and an optional entry type. */
module LogEntries {
  import opened Base
  import opened JavaInt
  import opened JavaHash

  /** `java.util.Date`, by its `getTime()` value (a Java `long`, as bits). */
  datatype Date = Date(time: bv64)

  /** A `LogEntryType` constant, by its name (which its `toString()` gives). */
  datatype LogEntryType = LogEntryType(name: string)

  const MEDICAL: LogEntryType := LogEntryType("MEDICAL")

  /** `Date.hashCode()`: the two halves of the time xor-ed, as an `int`. */
  function DateHash(d: Date): int32 {
    Wrap(((d.time ^ (d.time >> 32)) & 0xFFFF_FFFF) as int)
  }

  /** The text `toString()` puts before the description: the formatted
      date in brackets, or nothing. */
  function DatePart(date: Option<Date>, fmt: Date -> string): string {
    if date.Some? then "[" + fmt(date.value) + "] " else ""
  }

  /** The text `toString()` puts after the description: the type in
      parentheses, or nothing. */
  function TypePart(logType: Option<LogEntryType>): string {
    if logType.Some? then " (" + logType.value.name + ")" else ""
  }

  /** An ASCII letter's upper case; other characters are kept. */
  function ToUpper(c: char): char {
    if 'a' <= c <= 'z' then (c as int - 32) as char else c
  }

  /** `String.equalsIgnoreCase`: same length, and each pair of characters
      equal once upper-cased. */
  predicate EqualsIgnoreCase(a: string, b: string) {
    |a| == |b| && forall i :: 0 <= i < |a| ==> ToUpper(a[i]) == ToUpper(b[i])
  }

  /** Every way of writing "med" in upper and lower case. */
  const MED_SPELLINGS: set<string> := {"med", "meD", "mEd", "mED", "Med", "MeD", "MEd", "MED"}

  /** `equalsIgnoreCase("med")` holds of exactly the eight spellings. */
  lemma MedSpellings(s: string)
    ensures EqualsIgnoreCase(s, "med") <==> s in MED_SPELLINGS
  {
    if EqualsIgnoreCase(s, "med") {
      assert ToUpper(s[0]) == 'M' && ToUpper(s[1]) == 'E' && ToUpper(s[2]) == 'D';
      assert s[0] in {'m', 'M'} && s[1] in {'e', 'E'} && s[2] in {'d', 'D'};
      assert s == [s[0], s[1], s[2]];
    }
  }

  /** `ensureBackwardCompatibility(logType)`: the old name "med", in any
      case, becomes "MEDICAL"; every other name is kept. */
  function EnsureBackwardCompatibility(logType: string): (r: string)
    ensures logType in MED_SPELLINGS ==> r == MEDICAL.name
    ensures logType !in MED_SPELLINGS ==> r == logType
  {
    MedSpellings(logType);
    if EqualsIgnoreCase(logType, "med") then MEDICAL.name else logType
  }

  /** Mapping twice is mapping once. */
  lemma EnsureBackwardCompatibilityIdempotent(s: string)
    ensures EnsureBackwardCompatibility(EnsureBackwardCompatibility(s)) == EnsureBackwardCompatibility(s)
  {
    assert MEDICAL.name !in MED_SPELLINGS;
  }

  class LogEntry {
    var date: Option<Date>
    /** Never null: a null description is stored as "". */
    var desc: string
    var logType: Option<LogEntryType>

    /** `LogEntry(date, desc, type)`. */
    constructor (date: Option<Date>, desc: Option<string>, logType: Option<LogEntryType>)
      ensures this.date == date && this.logType == logType
      ensures this.desc == (if desc.Some? then desc.value else "")
    {
      this.date := date;
      this.desc := if desc.Some? then desc.value else "";
      this.logType := logType;
    }

    /** `LogEntry(date, desc)`: no type. */
    constructor Untyped(date: Option<Date>, desc: Option<string>)
      ensures this.date == date && this.logType == None
      ensures this.desc == (if desc.Some? then desc.value else "")
    {
      this.date := date;
      this.desc := if desc.Some? then desc.value else "";
      this.logType := None;
    }

    /** `setDate(date)`: only the date changes. */
    method SetDate(date: Option<Date>)
      modifies this`date
      ensures this.date == date && desc == old(desc) && logType == old(logType)
    {
      this.date := date;
    }

    /** `setDesc(desc)`: only the description changes; null becomes "". */
    method SetDesc(desc: Option<string>)
      modifies this`desc
      ensures this.desc == (if desc.Some? then desc.value else "")
      ensures date == old(date) && logType == old(logType)
    {
      this.desc := if desc.Some? then desc.value else "";
    }

    /** `setType(type)`: only the type changes. */
    method SetType(logType: Option<LogEntryType>)
      modifies this`logType
      ensures this.logType == logType && date == old(date) && desc == old(desc)
    {
      this.logType := logType;
    }

    /** `equals(obj)`: the same object, or a non-null entry with equal date,
        description and type (null dates and types equal each other). */
    function Equals(other: LogEntry?): (b: bool)
      reads this, other
      ensures other == this ==> b
      ensures b <==> other != null && date == other.date && desc == other.desc && logType == other.logType
    {
      if this == other then true
      else if other == null then false
      else date == other.date && desc == other.desc && logType == other.logType
    }

    /** `hashCode()`: `Objects.hash(date, desc, type)`, a null field
        counting 0. An enum constant's hash is its identity hash, which
        `typeHash` gives. */
    function HashCode(typeHash: LogEntryType -> int32): (h: int32)
      reads this
      ensures var hd := if date.Some? then DateHash(date.value) else 0;
              var ht := if logType.Some? then typeHash(logType.value) else 0;
              h == Wrap(29791 + 961 * hd as int + 31 * StringHash(desc) as int + ht as int)
    {
      Hash3(if date.Some? then DateHash(date.value) else 0,
            StringHash(desc),
            if logType.Some? then typeHash(logType.value) else 0)
    }

    /** `toString()`: "[date] " when there is a date, the description, and
        " (type)" when there is a type. `fmt` is the date format. */
    function ToString(fmt: Date -> string): (s: string)
      reads this
      ensures |s| == |DatePart(date, fmt)| + |desc| + |TypePart(logType)|
      ensures s[..|DatePart(date, fmt)|] == DatePart(date, fmt)
      ensures s[|DatePart(date, fmt)|..|s| - |TypePart(logType)|] == desc
      ensures s[|s| - |TypePart(logType)|..] == TypePart(logType)
    {
      var pre, post := DatePart(date, fmt), TypePart(logType);
      var s := pre + desc + post;
      assert s[..|pre|] == pre;
      assert s[|pre|..|s| - |post|] == desc;
      assert s[|s| - |post|..] == post;
      s
    }

    /** `clone()`: a new entry equal to this one. */
    method Clone() returns (c: LogEntry)
      ensures fresh(c) && c != this
      ensures c.date == date && c.desc == desc && c.logType == logType
      ensures Equals(c) && c.Equals(this)
    {
      c := new LogEntry(date, Some(desc), logType);
    }
  }

  /** Equal entries hash equally, whatever the enum hashes are. */
  lemma EqualEntriesHashEqually(a: LogEntry, b: LogEntry, typeHash: LogEntryType -> int32)
    requires a.Equals(b)
    ensures a.HashCode(typeHash) == b.HashCode(typeHash)
  {
  }

  /** `equals` is symmetric and transitive. */
  lemma EqualsIsEquivalence(a: LogEntry, b: LogEntry, c: LogEntry)
    ensures a.Equals(b) ==> b.Equals(a)
    ensures a.Equals(b) && b.Equals(c) ==> a.Equals(c)
  {
  }

  /** Entries with the same date and type print the same exactly when their
      descriptions are the same. */
  lemma ToStringDescInjective(a: LogEntry, b: LogEntry, fmt: Date -> string)
    requires a.date == b.date && a.logType == b.logType
    ensures a.ToString(fmt) == b.ToString(fmt) <==> a.desc == b.desc
  {
    var sa, sb := a.ToString(fmt), b.ToString(fmt);
    if sa == sb {
      assert a.desc == sa[|DatePart(a.date, fmt)|..|sa| - |TypePart(a.logType)|];
    }
  }
}
