/** The values the Generator form edits and publishes: the card data, the
    fixed preset palette and the row inserted into the `agents` table. */
module Card {

  /** The five editable fields of the form. `agentType` is the field the
      form calls `type`. */
  datatype CardData = CardData(
    name: string,
    agentType: string,
    serial: string,
    soulText: string,
    themeColor: string)

  /** The values every field holds when the form mounts. */
  function DefaultCard(): (c: CardData)
    ensures c.serial != "" && c.themeColor == PresetColors[0].value
  {
    CardData(
      "Hong Hyung Bot",
      "AI Agent",
      "AGENT-MAIN-001",
      "평생의 동료, 홍형님을 위해 존재합니다.",
      "#00d2ff")
  }

  /** One button of the preset palette: a colour name and the colour it writes. */
  datatype Preset = Preset(colorName: string, value: string)

  /** The six presets, in the order the palette shows them. */
  const PresetColors: seq<Preset> := [
    Preset("Cyan", "#00d2ff"),
    Preset("Magenta", "#ff006e"),
    Preset("Neon Green", "#39ff14"),
    Preset("Purple", "#b026ff"),
    Preset("Orange", "#ff9500"),
    Preset("Gold", "#ffd700")
  ]

  /** A preset button is drawn as selected when the theme colour is exactly its value. */
  predicate IsPresetSelected(p: Preset, themeColor: string)
  {
    themeColor == p.value
  }

  /** The preset values are pairwise distinct, so whatever the theme colour
      is, at most one preset is drawn as selected. */
  lemma PresetSelectionUnique(themeColor: string, i: nat, j: nat)
    requires i < |PresetColors| && j < |PresetColors|
    requires IsPresetSelected(PresetColors[i], themeColor)
    requires IsPresetSelected(PresetColors[j], themeColor)
    ensures i == j
  {
  }

  /** The row inserted into the `agents` table: these six columns and no
      others (the store adds `id` and `created_at` itself). */
  datatype AgentRecord = AgentRecord(
    name: string,
    model: string,
    serialNumber: string,
    soulText: string,
    themeColor: string,
    imageUrl: string)

  /** The form fields a record carries, read back column by column. */
  function CardOfRecord(r: AgentRecord): CardData
  {
    CardData(r.name, r.model, r.serialNumber, r.soulText, r.themeColor)
  }

  /** The record literal built from the form and the resolved public URL. It
      loses nothing: the form reads back from its columns, and `image_url`
      is the URL. */
  function AgentRecordOf(card: CardData, publicUrl: string): (r: AgentRecord)
    ensures CardOfRecord(r) == card && r.imageUrl == publicUrl
  {
    AgentRecord(card.name, card.agentType, card.serial, card.soulText, card.themeColor, publicUrl)
  }
}
