/** The draw.io file `convert_mermaid_to_drawio_xml` in `modules/llm_functions.py` builds:
    a fixed document whose code cell carries the mermaid code, escaped, in its `value`
    attribute. Kept apart from the other diagram helpers because the fixed text is long. */
module Drawio {
  import opened Diagrams

  /** The draw.io file up to the code cell's `value` attribute. */
  function TemplateHead(): string {
    @"<?xml version=""1.0"" encoding=""UTF-8""?>
<mxfile host=""app.diagrams.net"">
  <diagram name=""Architecture"" id=""architecture"">
    <mxGraphModel dx=""1422"" dy=""794"" grid=""1"" gridSize=""10"" guides=""1"" tooltips=""1"" connect=""1"" arrows=""1"" fold=""1"" page=""1"" pageScale=""1"" pageWidth=""827"" pageHeight=""1169"">
      <root>
        <mxCell id=""0"" />
        <mxCell id=""1"" parent=""0"" />
        <!-- Mermaid diagram converted to Draw.io format -->
        <mxCell id=""mermaid-note"" value=""Generated from Mermaid code - Edit in Draw.io for professional styling"" style=""text;html=1;strokeColor=none;fillColor=none;align=center;verticalAlign=middle;whiteSpace=wrap;rounded=0;"" vertex=""1"" parent=""1"">
          <mxGeometry x=""40"" y=""40"" width=""400"" height=""30"" as=""geometry"" />
        </mxCell>
        <mxCell id=""mermaid-code"" value="""
  }

  /** The rest of the draw.io file after the attribute. */
  function TemplateTail(): string {
    @""" style=""text;html=1;strokeColor=#666666;fillColor=#f5f5f5;align=left;verticalAlign=top;whiteSpace=wrap;rounded=0;fontFamily=Courier New;"" vertex=""1"" parent=""1"">
          <mxGeometry x=""40"" y=""80"" width=""700"" height=""400"" as=""geometry"" />
        </mxCell>
      </root>
    </mxGraphModel>
  </diagram>
</mxfile>"
  }

  /** The file as written, with only newlines and double quotes escaped. */
  function DrawioXmlAsWritten(code: string): string {
    AttributeFileAsWritten(TemplateHead(), code, TemplateTail())
  }

  /** The file with the code escaped by `EscapeAttr`. */
  function DrawioXml(code: string): string {
    AttributeFile(TemplateHead(), code, TemplateTail())
  }

  /** The text of the diagram `generate_xml_architecture` returns. */
  function XmlText(d: Diagram): string {
    match d
    case Document(x) => x
    case Converted(code) => DrawioXml(code)
  }

  /** The text `generate_xml_architecture` returns as written. */
  function XmlTextAsWritten(d: Diagram): string {
    match d
    case Document(x) => x
    case Converted(code) => DrawioXmlAsWritten(code)
  }
}
