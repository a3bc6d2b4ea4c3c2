/**
 * The homepage category strip (src/components/home/Categories.tsx): it
 * starts from four built-in categories and replaces them with the active
 * collections from the database when there are any.
 */
module Categories {
  import opened Wrappers
  import opened Http

  datatype Category = Category(id: string, name: string, image: string, link: string)

  /** A row of the `collections` table, with the columns the strip reads. */
  datatype CollectionRow = CollectionRow(id: string, name: string, image_url: string, link: string)

  /** The built-in categories. */
  const DefaultCategories := [
    Category("1", "Gold Jewellery",
      "https://images.unsplash.com/photo-1611591437281-460bfbe1220a?q=80&w=2070&auto=format&fit=crop", "/shop?metal=gold"),
    Category("2", "Silver Collection",
      "https://images.unsplash.com/photo-1602751584552-8ba43d5c38f4?q=80&w=2070&auto=format&fit=crop", "/shop?metal=silver"),
    Category("3", "Diamond Essence",
      "https://images.unsplash.com/photo-1599643478518-17488fbbcd75?q=80&w=1974&auto=format&fit=crop", "/shop?metal=diamond"),
    Category("4", "Wedding Collection",
      "https://images.unsplash.com/photo-1515562141207-7a88fb0537bf?q=80&w=2070&auto=format&fit=crop", "/collections/wedding")
  ]

  /** One collection row as a category: its id, name and link, and its `image_url` as the image. */
  function ToCategory(row: CollectionRow): (c: Category)
    ensures c.id == row.id && c.name == row.name && c.image == row.image_url && c.link == row.link
  {
    Category(row.id, row.name, row.image_url, row.link)
  }

  /** `data.map(...)`: one category per row, in the rows' order. */
  function ToCategories(rows: seq<CollectionRow>): (cs: seq<Category>)
    ensures |cs| == |rows|
    ensures forall i :: 0 <= i < |rows| ==> cs[i] == ToCategory(rows[i])
  {
    if rows == [] then [] else ToCategories(rows[..|rows| - 1]) + [ToCategory(rows[|rows| - 1])]
  }

  /** The strip's state. */
  class CategoryStrip {
    var categories: seq<Category>

    /** The strip never goes empty. */
    predicate Valid()
      reads this
    {
      categories != []
    }

    /** The strip starts with the four built-in categories, the first three leading to the gold, silver and diamond shop views. */
    constructor ()
      ensures Valid() && categories == DefaultCategories
      ensures |categories| == 4
      ensures categories[0].link == "/shop?metal=gold" && categories[1].link == "/shop?metal=silver"
      ensures categories[2].link == "/shop?metal=diamond"
    {
      categories := DefaultCategories;
    }

    /**
     * `fetchCategories`, given what the query produced (None for a null
     * `data`): a non-empty result replaces the list; an empty or missing
     * result, or a failure, keeps it.
     */
    method ApplyFetch(result: Fetch<Option<seq<CollectionRow>>>)
      requires Valid()
      modifies this
      ensures Valid()
      ensures result.Loaded? && result.value.Some? && result.value.value != [] ==>
        categories == ToCategories(result.value.value)
      ensures !(result.Loaded? && result.value.Some? && result.value.value != []) ==> categories == old(categories)
    {
      if result.Loaded? && result.value.Some? && |result.value.value| > 0 {
        categories := ToCategories(result.value.value);
      }
    }
  }
}
