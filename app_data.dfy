/**
 * The app's mock constants and the value-building expressions of its
 * handlers (App.tsx): the random cookie of the maker's shuffle button, the
 * letter the maker sends, and the canned result of a friend search.
 */
module AppData {
  import opened Types
  import opened JsText
  import CookieVisual

  /** The user every session signs in as (App.tsx:29-36). */
  const MockUser := User("user_123", "김싸피", Seoul, "20반", "ssafy.kim", false)

  /** The cookie the maker starts from (App.tsx:38-44). */
  const InitialConfig := CookieConfig("#C57A45", 0, 0, 0, "transparent")

  /** The skin palette (App.tsx:46). */
  const CookieColors: seq<string> :=
    ["#C57A45", "#D69E6B", "#8D6E63", "#F3C892", "#FFCCBC", "#795548", "#5D4037", "#EFEBE9"]

  /** The shirt palette; `transparent` means no visible shirt (App.tsx:47). */
  const ShirtColors: seq<string> :=
    ["transparent", "#D83939", "#176A3A", "#F3C892", "#3B82F6", "#8B5CF6", "#EC4899", "#6366F1"]

  /** The longest letter the text area accepts, in UTF-16 code units (App.tsx:234). */
  const MaxContent := 300

  /** Letters longer than this are flagged `isLong` (App.tsx:138). */
  const LongThreshold := 50

  /** A config the maker's controls can produce: palette colours and known selectors. */
  predicate InPalette(c: CookieConfig)
  {
    c.skinColor in CookieColors && c.shirtColor in ShirtColors
    && 0 <= c.eyeType <= 2 && 0 <= c.mouthType <= 2 && 0 <= c.accessory <= 3
  }

  /**
   * The five `Math.random()` results `randomize` draws, in evaluation order:
   * skin, shirt, eyes, mouth, accessory.
   */
  datatype Draws = Draws(skin: real, shirt: real, eyes: real, mouth: real, accessory: real)

  /** Every draw lies in [0, 1), as `Math.random` guarantees. */
  predicate ValidDraws(d: Draws)
  {
    0.0 <= d.skin < 1.0 && 0.0 <= d.shirt < 1.0 && 0.0 <= d.eyes < 1.0
    && 0.0 <= d.mouth < 1.0 && 0.0 <= d.accessory < 1.0
  }

  /** `Math.floor(x * n)` for a draw `x`. */
  function Pick(x: real, n: nat): (k: int)
    requires 0.0 <= x < 1.0 && n > 0
    ensures 0 <= k < n
  {
    var m := n as real;
    assert 0.0 <= x * m < m by {
      assert 0.0 < 1.0 - x && 0.0 < m;
      assert 0.0 < (1.0 - x) * m;
    }
    (x * m).Floor
  }

  /** The config the shuffle button sets (App.tsx:120-128). */
  function RandomConfig(d: Draws): (c: CookieConfig)
    requires ValidDraws(d)
    ensures InPalette(c)
  {
    CookieConfig(
      CookieColors[Pick(d.skin, |CookieColors|)],
      Pick(d.eyes, 3),
      Pick(d.mouth, 3),
      Pick(d.accessory, 4),
      ShirtColors[Pick(d.shirt, |ShirtColors|)])
  }

  /** The draw that makes `Pick` choose `k`. */
  lemma PickHits(k: nat, n: nat)
    requires k < n
    ensures 0.0 <= k as real / n as real < 1.0 && Pick(k as real / n as real, n) == k
  {
    assert (k as real / n as real) * n as real == k as real;
  }

  /**
   * The shuffle button can produce every config the maker's controls can:
   * each palette config is the outcome of some draws.
   */
  lemma RandomConfigCoversPalette(c: CookieConfig)
    requires InPalette(c)
    ensures exists d :: ValidDraws(d) && RandomConfig(d) == c
  {
    var i :| 0 <= i < |CookieColors| && CookieColors[i] == c.skinColor;
    var j :| 0 <= j < |ShirtColors| && ShirtColors[j] == c.shirtColor;
    var d := DrawsFor(i, j, c.eyeType, c.mouthType, c.accessory);
    assert RandomConfig(d) == c;
  }

  /** Draws that pick palette entries `i` and `j` and the selectors `e`, `m` and `a`. */
  lemma DrawsFor(i: nat, j: nat, e: nat, m: nat, a: nat) returns (d: Draws)
    requires i < |CookieColors| && j < |ShirtColors| && e < 3 && m < 3 && a < 4
    ensures ValidDraws(d)
    ensures RandomConfig(d) == CookieConfig(CookieColors[i], e, m, a, ShirtColors[j])
  {
    PickHits(i, |CookieColors|);
    PickHits(j, |ShirtColors|);
    PickHits(e, 3);
    PickHits(m, 3);
    PickHits(a, 4);
    d := Draws(i as real / |CookieColors| as real, j as real / |ShirtColors| as real,
               e as real / 3 as real, m as real / 3 as real, a as real / 4 as real);
  }

  /** A shuffled cookie always has a face: one eye variant and one mouth variant are drawn. */
  lemma RandomCookieHasFace(d: Draws)
    requires ValidDraws(d)
    ensures CookieVisual.OnLayer(CookieVisual.Render(RandomConfig(d)), CookieVisual.Eyes) != []
    ensures CookieVisual.OnLayer(CookieVisual.Render(RandomConfig(d)), CookieVisual.Mouth) != []
  {
    CookieVisual.RenderLayer(RandomConfig(d), CookieVisual.Eyes);
    CookieVisual.RenderLayer(RandomConfig(d), CookieVisual.Mouth);
  }

  /** The recipient fields of the maker's third step (App.tsx:115-117). */
  datatype Recipient = Recipient(name: string, campus: Campus, classLabel: string)

  /**
   * The letter `handleSend` builds (App.tsx:130-143). `id` is the decimal
   * text of one clock reading and `timestamp` a second reading.
   */
  function MakeLetter(id: string, timestamp: int, to: Recipient, sender: User,
                      content: string, config: CookieConfig): (l: Letter)
    ensures l.isLong <==> Utf16Length(content) > LongThreshold
    ensures !l.isRead
    ensures l.fromName == sender.name && l.content == content && l.cookieConfig == config
    ensures l.toName == to.name && l.toCampus == to.campus && l.toClass == to.classLabel
    ensures l.id == id && l.timestamp == timestamp
  {
    Letter(id, to.name, to.campus, to.classLabel, sender.name, content,
           Utf16Length(content) > LongThreshold, config, timestamp, false)
  }

  /**
   * What every letter the app stores satisfies: unread, sent by the mock
   * user to a named recipient, with non-blank content of at most 300 units,
   * a consistent `isLong` flag and a cookie from the maker's palette.
   */
  predicate WellFormedLetter(l: Letter)
  {
    && !l.isRead
    && l.fromName == MockUser.name
    && l.toName != ""
    && Trim(l.content) != ""
    && Utf16Length(l.content) <= MaxContent
    && (l.isLong <==> Utf16Length(l.content) > LongThreshold)
    && InPalette(l.cookieConfig)
  }

  /**
   * A letter sent from a complete form is well formed, and it is long
   * exactly when it does not fit in 50 characters of Basic Multilingual
   * Plane text.
   */
  lemma SentLetterWellFormed(id: string, timestamp: int, to: Recipient, sender: User,
                             content: string, config: CookieConfig)
    requires sender.name == MockUser.name && to.name != ""
    requires Trim(content) != "" && Utf16Length(content) <= MaxContent
    requires InPalette(config)
    ensures WellFormedLetter(MakeLetter(id, timestamp, to, sender, content, config))
    ensures (forall i :: 0 <= i < |content| ==> content[i] as int < 0x1_0000) ==>
      (MakeLetter(id, timestamp, to, sender, content, config).isLong <==> |content| > 50)
  {
    var l := MakeLetter(id, timestamp, to, sender, content, config);
    assert l.content == content && l.fromName == sender.name && l.toName == to.name;
  }

  /** The canned oven a friend search shows (App.tsx:427-435). */
  datatype FriendOvenView = FriendOvenView(name: string, classLabel: string, cookies: seq<CookieConfig>)

  /**
   * The result of searching for `term`: the term as the friend's name and
   * three variations of the initial cookie wearing no accessory, a hat and
   * a scarf.
   */
  function MockFriendOven(term: string): (v: FriendOvenView)
    ensures v.name == term && v.classLabel == "20반"
    ensures |v.cookies| == 3
    ensures forall i :: 0 <= i < 3 ==>
      v.cookies[i] == InitialConfig.(skinColor := v.cookies[i].skinColor,
                                     accessory := v.cookies[i].accessory)
      && InPalette(v.cookies[i])
    ensures v.cookies[0].accessory == 0 && v.cookies[1].accessory == 1 && v.cookies[2].accessory == 3
    ensures v.cookies[0] == InitialConfig
  {
    FriendOvenView(term, "20반",
      [ InitialConfig.(skinColor := CookieColors[0]),
        InitialConfig.(skinColor := CookieColors[2], accessory := 1),
        InitialConfig.(skinColor := CookieColors[4], accessory := 3) ])
  }
}
