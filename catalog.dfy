/** A catalog product as the pages read it (prices in minor currency
    units, as in the sample data: 1999 is ₹19.99). Only the fields some
    modelled logic inspects are kept. */
module Catalog {

  datatype Product = Product(
    id: string,
    name: string,
    image: string,
    price: int,
    category: string,
    sizes: seq<string>,
    colors: seq<string>,
    featured: bool,
    stock: int)
}
