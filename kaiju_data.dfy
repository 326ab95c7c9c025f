/**
 * The constant tables of the game: the element matchup, the kaiju and hero
 * presets, the Japanese element names and the starting HP
 * (src/shared/constants/kaiju-data.ts).
 */
module KaijuData {
  import opened Common
  import opened BattleTypes

  /** `ELEMENT_MATCHUP[attacker][defender]`, the damage multiplier of one element against another. */
  function Matchup(attacker: Element, defender: Element): real
  {
    match attacker
    case Fire =>
      (match defender
       case Fire => 1.0 case Ice => 1.5 case Thunder => 0.8 case Earth => 1.0 case Void => 0.8 case Light => 0.8)
    case Ice =>
      (match defender
       case Fire => 0.8 case Ice => 1.0 case Thunder => 1.5 case Earth => 0.8 case Void => 1.0 case Light => 1.0)
    case Thunder =>
      (match defender
       case Fire => 1.0 case Ice => 0.8 case Thunder => 1.0 case Earth => 1.5 case Void => 0.8 case Light => 1.0)
    case Earth =>
      (match defender
       case Fire => 1.0 case Ice => 1.0 case Thunder => 0.8 case Earth => 1.0 case Void => 1.5 case Light => 0.8)
    case Void =>
      (match defender
       case Fire => 1.5 case Ice => 0.8 case Thunder => 1.0 case Earth => 0.8 case Void => 1.0 case Light => 1.5)
    case Light =>
      (match defender
       case Fire => 1.5 case Ice => 1.0 case Thunder => 1.0 case Earth => 1.5 case Void => 0.8 case Light => 1.0)
  }

  const AllElements: seq<Element> := [Fire, Ice, Thunder, Earth, Void, Light]

  /** Every matchup value is one of 0.8, 1.0 and 1.5, and so positive. */
  lemma MatchupValues(a: Element, d: Element)
    ensures Matchup(a, d) in {0.8, 1.0, 1.5}
    ensures Matchup(a, d) > 0.0
  {
  }

  /** An element against itself is neutral. */
  lemma MatchupSelfNeutral(e: Element)
    ensures Matchup(e, e) == 1.0
  {
  }

  /** Every attacking element is strong (1.5) against some element. */
  lemma MatchupEveryElementHasAdvantage(a: Element)
    ensures exists d :: Matchup(a, d) == 1.5
  {
    match a
    case Fire => assert Matchup(a, Ice) == 1.5;
    case Ice => assert Matchup(a, Thunder) == 1.5;
    case Thunder => assert Matchup(a, Earth) == 1.5;
    case Earth => assert Matchup(a, Void) == 1.5;
    case Void => assert Matchup(a, Fire) == 1.5;
    case Light => assert Matchup(a, Fire) == 1.5;
  }

  lemma FireBeatsIce()
    ensures Matchup(Fire, Ice) == 1.5
  {
  }

  function Profile(id: string, name: string, nameJa: string, element: Element, category: Category,
                   description: string, image: string, attack: real, defense: real): KaijuProfile
  {
    KaijuProfile(id, name, nameJa, element, category, description, Some(image), attack, defense)
  }

  /** `KAIJU_PRESETS`. */
  const KaijuPresets: seq<KaijuProfile> := [
    Profile("01", "Infernus", "インフェルヌス", Fire, KaijuCategory,
            "灼熱の怪獣。すべてを焼き尽くす", "/images/kaiju-infernus.png", 12.0, 8.0),
    Profile("02", "Glacius", "グレイシアス", Ice, KaijuCategory,
            "氷の怪獣。絶対零度の守護者", "/images/kaiju-glacius.png", 8.0, 12.0),
    Profile("03", "Voltarion", "ボルタリオン", Thunder, KaijuCategory,
            "雷の怪獣。稲妻を纏う破壊者", "/images/kaiju-voltarion.png", 11.0, 9.0),
    Profile("04", "Terradon", "テラドン", Earth, KaijuCategory,
            "大地の怪獣。揺るがぬ巨体", "/images/kaiju-terradon.png", 9.0, 11.0),
    Profile("05", "Nihilus", "ニヒルス", Void, KaijuCategory,
            "虚無の怪獣。全てを飲み込む", "/images/kaiju-nihilus.png", 10.0, 10.0)
  ]

  /** `HERO_PRESETS`. */
  const HeroPresets: seq<KaijuProfile> := [
    Profile("h01", "Solaris", "ソラリス", Light, HeroCategory,
            "太陽の戦士。正義の光で闇を切り裂く", "/images/hero-solaris.png", 11.0, 9.0),
    Profile("h02", "Frostguard", "フロストガード", Ice, HeroCategory,
            "氷結の守護者。冷気の盾で民を守る", "/images/hero-frostguard.png", 8.0, 12.0),
    Profile("h03", "Stormbreaker", "ストームブレイカー", Thunder, HeroCategory,
            "嵐の破壊者。雷を操る空の勇者", "/images/hero-stormbreaker.png", 12.0, 8.0),
    Profile("h04", "Gaia Knight", "ガイアナイト", Earth, HeroCategory,
            "大地の騎士。揺るがぬ信念と鉄壁の守り", "/images/hero-gaiaknight.png", 9.0, 11.0),
    Profile("h05", "Shadow Hunter", "シャドウハンター", Void, HeroCategory,
            "影の狩人。闇から闇へ、獲物を追い詰める", "/images/hero-shadowhunter.png", 10.0, 10.0)
  ]

  /** The kaiju presets are five, with ids "01".."05", all in the kaiju category. */
  lemma KaijuPresetsShape()
    ensures |KaijuPresets| == 5
    ensures forall i :: 0 <= i < 5 ==> KaijuPresets[i].category == KaijuCategory
    ensures forall i :: 0 <= i < 5 ==> KaijuPresets[i].id == ['0', "12345"[i]]
  {
  }

  /** The hero presets are five, with ids "h01".."h05", all in the hero category. */
  lemma HeroPresetsShape()
    ensures |HeroPresets| == 5
    ensures forall i :: 0 <= i < 5 ==> HeroPresets[i].category == HeroCategory
    ensures forall i :: 0 <= i < 5 ==> HeroPresets[i].id == ['h', '0', "12345"[i]]
  {
  }

  /** No preset id is shared by a kaiju and a hero, and ids are distinct within each table. */
  lemma PresetIdsDistinct()
    ensures forall i, j :: 0 <= i < 5 && 0 <= j < 5 ==> KaijuPresets[i].id != HeroPresets[j].id
    ensures forall i, j :: 0 <= i < j < 5 ==> KaijuPresets[i].id != KaijuPresets[j].id
    ensures forall i, j :: 0 <= i < j < 5 ==> HeroPresets[i].id != HeroPresets[j].id
  {
    KaijuPresetsShape();
    HeroPresetsShape();
  }

  /** Every preset can stand in a battle: positive attack and defense, and an image. */
  lemma PresetsUsable()
    ensures forall p :: p in KaijuPresets + HeroPresets ==> p.baseAttack > 0.0 && p.baseDefense > 0.0 && p.imageUrl.Some?
  {
  }

  /** `ELEMENT_NAMES`: the one-character Japanese name of each element. */
  function ElementName(e: Element): (name: string)
    ensures |name| == 1
  {
    match e
    case Fire => "火"
    case Ice => "氷"
    case Thunder => "雷"
    case Earth => "地"
    case Void => "虚"
    case Light => "光"
  }

  /** Distinct elements have distinct names. */
  lemma ElementNamesInjective(a: Element, b: Element)
    requires a != b
    ensures ElementName(a) != ElementName(b)
  {
  }

  /** `INITIAL_HP`. */
  const InitialHp: int := 200
}
