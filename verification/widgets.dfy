/** The two widget values the updaters edit: a `key.Binding` of the bubbles
    library and a `lipgloss.Style`.  Only the parts the updaters touch are
    represented; a style is an opaque value that the style importer rewrites.
 */
module Widgets {

  /** `key.Help`: the key text and description a help view shows. */
  datatype Help = Help(key: string, desc: string)

  /** `key.Binding`: the key names it matches, its help, and whether it has
      been disabled. */
  datatype Binding = Binding(keys: seq<string>, help: Help, disabled: bool) {

    /** A binding matches keys only when it is enabled and has keys. */
    predicate Enabled() {
      !disabled && keys != []
    }

    function SetEnabled(v: bool): (b: Binding)
      ensures b.disabled == !v && b.keys == keys && b.help == help
    {
      this.(disabled := !v)
    }

    function SetKeys(ks: seq<string>): (b: Binding)
      ensures b.keys == ks && b.help == help && b.disabled == disabled
    {
      this.(keys := ks)
    }

    function SetHelp(key: string, desc: string): (b: Binding)
      ensures b.help.key == key && b.help.desc == desc
      ensures b.keys == keys && b.disabled == disabled
    {
      this.(help := Help(key, desc))
    }

    /** Removes the keys and the help; the enabled flag is kept. */
    function Unbind(): (b: Binding)
      ensures !b.Enabled() && b.keys == [] && b.help == Help("", "")
      ensures b.disabled == disabled
    {
      this.(keys := [], help := Help("", ""))
    }
  }

  /** `lipgloss.Style`, identified by the properties it sets. */
  datatype Style = Style(properties: string)

  /** The zero binding and the zero style, as a Go struct declares them. */
  const ZeroBinding: Binding := Binding([], Help("", ""), false)
  const ZeroStyle: Style := Style("")
}
