/** Where a translatable text sits in a UIF document. The translator
    addresses texts by dotted paths such as
    `sections.0.subsections.2.blocks.1.table.rows.3.0.content`; here a path
    is a value: the chain of section indices from the top level down, and
    the field inside that section. */
module TextPaths {

  datatype BlockField =
    | ContentField                 // `.content`
    | ItemField(k: nat)            // `.items.k`, a plain string item
    | ItemTextField(k: nat)        // `.items.k.text`, a dictionary item
    | HeaderField(k: nat)          // `.table.headers.k`
    | CellField(r: nat, c: nat)    // `.table.rows.r.c`, a plain string cell
    | CellContentField(r: nat, c: nat) // `.table.rows.r.c.content`, a rich cell
    | PreambleField                // `.signature.preamble`
    | LabelField(l: nat)           // `.signature.lines.l.label`

  datatype SectionField =
    | HeadingField                 // `.heading`
    | BlockAt(j: nat, field: BlockField) // `.blocks.j` and the field in it

  datatype Path =
    | TitlePath                    // `title`
    | SectionText(loc: seq<nat>, field: SectionField)
}
