/** What a rate header's name says, as text: any stem, then the digits and the unit letter of an interval. */
module HeaderNames {
  import opened RateTables
  import opened RateAuthority

  ghost predicate AllDigits(text: string) {
    forall k :: 0 <= k < |text| ==> '0' <= text[k] <= '9'
  }

  /** The name is `stem`, the whole run of digits before the last letter, and that letter, read as an interval. */
  ghost predicate Spells(name: string, stem: string, digits: string, unit: char, interval: string) {
    && name == stem + digits + [unit]
    && digits != "" && AllDigits(digits)
    && (stem == "" || !('0' <= stem[|stem| - 1] <= '9'))
    && (|| (unit == 's' && interval == "SECOND_" + digits)
        || (unit == 'm' && interval == "MINUTE_" + digits)
        || (unit == 'h' && interval == "HOUR_" + digits)
        || (unit == 'd' && interval == "DAY_" + digits))
  }

  ghost predicate Names(name: string, interval: string) {
    exists stem, digits, unit :: Spells(name, stem, digits, unit, interval)
  }

  /** The trailing digits are the longest run there is. */
  lemma TrailingDigitsAre(stem: string, digits: string)
    requires AllDigits(digits) && (stem == "" || !('0' <= stem[|stem| - 1] <= '9'))
    ensures TrailingDigits(stem + digits) == |digits|
  {
    var text := stem + digits;
    assert forall k :: 0 <= k < |digits| ==> text[|stem| + k] == digits[k];
    assert stem != "" ==> text[|stem| - 1] == stem[|stem| - 1];
  }

  lemma SpelledIsRead(name: string, stem: string, digits: string, unit: char, interval: string)
    requires Spells(name, stem, digits, unit, interval)
    ensures IntervalOf(name) == Some(interval)
  {
    TrailingDigitsAre(stem, digits);
    assert name[..|name| - 1] == stem + digits;
    assert (stem + digits)[|stem + digits| - |digits|..] == digits;
  }

  lemma Cut(text: string, at: nat) returns (head: string, tail: string)
    requires at <= |text|
    ensures text == head + tail && |head| == at && tail == text[at..]
    ensures forall k :: 0 <= k < |tail| ==> tail[k] == text[at + k]
    ensures at > 0 ==> head[at - 1] == text[at - 1]
  {
    head, tail := text[..at], text[at..];
  }

  /** A text splits at the start of its trailing digits. */
  lemma SplitsAtDigits(text: string) returns (stem: string, digits: string)
    ensures text == stem + digits && AllDigits(digits) && (stem == "" || !('0' <= stem[|stem| - 1] <= '9'))
    ensures |digits| == TrailingDigits(text) && digits == text[|text| - TrailingDigits(text)..]
  {
    stem, digits := Cut(text, |text| - TrailingDigits(text));
  }

  lemma PartsSpell(name: string, stem: string, digits: string, unit: char)
    requires UnitName(unit).Some? && digits != "" && AllDigits(digits)
    requires (stem == "" || !('0' <= stem[|stem| - 1] <= '9')) && name == stem + digits + [unit]
    ensures Names(name, UnitName(unit).value + digits)
  {
    assert Spells(name, stem, digits, unit, UnitName(unit).value + digits);
  }

  lemma TextSpells(name: string, text: string, unit: char)
    requires name == text + [unit] && UnitName(unit).Some? && TrailingDigits(text) > 0
    ensures Names(name, UnitName(unit).value + text[|text| - TrailingDigits(text)..])
  {
    var stem, digits := SplitsAtDigits(text);
    PartsSpell(name, stem, digits, unit);
  }

  lemma LastApart(name: string)
    requires name != ""
    ensures name == name[..|name| - 1] + [name[|name| - 1]]
  {
  }

  lemma ReadIsSpelled(name: string)
    requires IntervalOf(name).Some?
    ensures Names(name, IntervalOf(name).value)
  {
    LastApart(name);
    TextSpells(name, name[..|name| - 1], name[|name| - 1]);
  }

  /** A header name is read as an interval exactly if its text spells that interval. */
  lemma IntervalIsSpelled(name: string, interval: string)
    ensures IntervalOf(name) == Some(interval) <==> Names(name, interval)
  {
    if IntervalOf(name) == Some(interval) {
      ReadIsSpelled(name);
    }
    if Names(name, interval) {
      var stem, digits, unit :| Spells(name, stem, digits, unit, interval);
      SpelledIsRead(name, stem, digits, unit, interval);
    }
  }

  /** The entry's text reports `v` for windows of this interval. */
  ghost predicate Reports(e: HeaderEntry, interval: string, v: int) {
    Names(e.name, interval) && e.reading == Number(v)
  }

  /** A group can be read exactly if it is an object whose interval entries are integers or null. */
  lemma ReadableIff(g: HeaderGroup)
    ensures Readable(g) <==>
      && g.Entries?
      && forall i, interval :: 0 <= i < |g.entries| && Names(g.entries[i].name, interval) ==>
           g.entries[i].reading.Missing? || g.entries[i].reading.Number?
  {
    if g.Entries? {
      forall i, interval | 0 <= i < |g.entries|
        ensures IntervalOf(g.entries[i].name) == Some(interval) <==> Names(g.entries[i].name, interval)
      {
        IntervalIsSpelled(g.entries[i].name, interval);
      }
      forall i | 0 <= i < |g.entries| && IntervalOf(g.entries[i].name).Some?
        ensures Names(g.entries[i].name, IntervalOf(g.entries[i].name).value)
      {
        ReadIsSpelled(g.entries[i].name);
      }
    }
  }
}
