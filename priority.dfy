/** The `Priority` chip: a todo's integer priority code shown as a coloured label. */
module Priority {
  /** `<Chip size="sm" color={color}>{text}</Chip>` */
  datatype Chip = Chip(color: string, text: string)

  const HighChip := Chip("danger", "High")
  const MediumChip := Chip("warning", "Medium")
  const LowChip := Chip("primary", "Low")

  /** `Priority({ priority })`: 1 is High, 2 is Medium, every other code is Low. */
  function Priority(priority: int): (r: Chip)
    ensures r in {HighChip, MediumChip, LowChip}
    ensures r == HighChip <==> priority == 1
    ensures r == MediumChip <==> priority == 2
    ensures r == LowChip <==> priority != 1 && priority != 2
  {
    if priority == 1 then HighChip
    else if priority == 2 then MediumChip
    else LowChip
  }
}
