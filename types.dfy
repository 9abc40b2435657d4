/**
 * The catalogue's data shapes (src/types/index.tsx) with prices in cents,
 * the payment methods the checkout offers, and a few catalogue entries of
 * src/lib/menu-data.ts used as concrete values.
 */
module Types {
  import opened Common
  import opened Money

  /** A priced variant of a menu item (`MenuItemOption`). */
  datatype MenuOption = MenuOption(id: string, name: string, price: Cents, description: Option<string>)

  /**
   * A menu entry (`MenuItem`). The source's optional `hasOptions` is false
   * when absent, and its optional `options` is empty when absent.
   */
  datatype MenuItem = MenuItem(
    id: string,
    name: string,
    description: string,
    price: Cents,
    category: string,
    image: Option<string>,
    available: bool,
    hasOptions: bool,
    options: seq<MenuOption>)

  /** The four payment labels the checkout screen offers. */
  datatype PaymentMethod = Yappy | Efectivo | Transferencia | Cheque {
    function Name(): string {
      match this
      case Yappy => "Yappy"
      case Efectivo => "Efectivo"
      case Transferencia => "Transferencia"
      case Cheque => "Cheque"
    }
  }

  /** The bulk option whose quantity starts at, and never goes below, ten. */
  const HallacaDecena: string := "Hallaca x Decena"

  const HallacaIndividualOption: MenuOption :=
    MenuOption("hallaca-individual", "Hallaca Individual", 300,
               Some("Hallaca tradicional con relleno de cerdo y pollo"))

  const HallacaDecenaOption: MenuOption :=
    MenuOption("hallaca-decena", HallacaDecena, 250,
               Some("Hallaca tradicional con relleno de cerdo y pollo"))

  const Hallaca: MenuItem :=
    MenuItem("dish-hallaca", "🫔 Hallaca Venezolana",
             "Masa de maíz rellena con guiso, envuelta en hoja de plátano",
             300, "Platos Fuertes", None, true, true,
             [HallacaIndividualOption, HallacaDecenaOption])

  const Lasagna: MenuItem :=
    MenuItem("dish-lasagna", "🍝 Lasagna (Pasticho)",
             "Capas de pasta con salsa bolognesa, queso y bechamel",
             600, "Platos Fuertes", None, true, false, [])
}
