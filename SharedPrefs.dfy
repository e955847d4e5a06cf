/** Android's SharedPreferences, reduced to what the settings code reads: one
    map per value kind, and the typed get-with-default accessors over them. */
module SharedPrefs {
  import opened JavaLang

  datatype Prefs = Prefs(
    strings: map<string, string>,
    booleans: map<string, bool>,
    longs: map<string, int64>)

  /** A source that holds no entry at all. */
  const EMPTY: Prefs := Prefs(map[], map[], map[])

  /** getString(key, defValue) */
  function GetString(p: Prefs, key: string, defValue: string): (r: string)
    ensures key in p.strings ==> r == p.strings[key]
    ensures key !in p.strings ==> r == defValue
  {
    if key in p.strings then p.strings[key] else defValue
  }

  /** getBoolean(key, defValue) */
  function GetBoolean(p: Prefs, key: string, defValue: bool): (r: bool)
    ensures key in p.booleans ==> r == p.booleans[key]
    ensures key !in p.booleans ==> r == defValue
  {
    if key in p.booleans then p.booleans[key] else defValue
  }

  /** getLong(key, defValue) */
  function GetLong(p: Prefs, key: string, defValue: int64): (r: int64)
    ensures key in p.longs ==> r == p.longs[key]
    ensures key !in p.longs ==> r == defValue
  {
    if key in p.longs then p.longs[key] else defValue
  }
}
