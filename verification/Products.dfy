/** What identifies a product on every page. */
module Products {
  datatype Slug = Slug(text: string)
}
