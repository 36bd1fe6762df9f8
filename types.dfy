/** The records of types.ts. */
module Types {
  import opened Wrappers

  /** The ordered pair of parent texts of a crafted element. */
  datatype Parents = Parents(first: string, second: string)

  /** A discovered concept (ElementData). */
  datatype ElementData = ElementData(id: string, text: string, emoji: string, parents: Option<Parents>)

  /**
   * A token on the crafting board (BoardElement extends ElementData).
   * Positions are whole pixels; an absent isLoading is false.
   */
  datatype BoardElement = BoardElement(
    id: string, text: string, emoji: string, parents: Option<Parents>,
    instanceId: string, x: int, y: int, isDragging: bool, isLoading: bool)
  {
    /** The ElementData part of the token. */
    function Data(): ElementData {
      ElementData(id, text, emoji, parents)
    }
  }

  /** The outcome of a successful combination. */
  datatype CraftingResult = CraftingResult(result: string, emoji: string, isNew: bool, colors: seq<string>)

  datatype GameState = Setup | Playing

  /** A summoned companion. createdAt is the millisecond clock reading at creation. */
  datatype PetData = PetData(id: string, name: string, emoji: string, color: string, description: string, createdAt: int)

  datatype ShopItemId = Runes | Binary | Bubbles | Nebula | FireworkBoom | FireworkColor

  datatype DecorationCategory = Background | Upgrade

  datatype ShopItem = ShopItem(id: ShopItemId, category: DecorationCategory, name: string, emoji: string, description: string)
}
