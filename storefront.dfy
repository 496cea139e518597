/** The state cells of the storefront's root component and of its admin panel.
    React replaces each cell wholesale; here each setter is a method that
    assigns the field the updater computes. */
module Storefront {
  import opened Types
  import opened Catalogue

  /** The root component: catalogue, cart and the shop's category filter. */
  class Shop {
    var products: seq<Product>
    var cart: seq<CartItem>
    var filter: string

    ghost predicate Valid()
      reads this
    {
      WellFormedCart(cart)
    }

    constructor (initial: seq<Product>)
      ensures Valid()
      ensures products == initial && cart == [] && filter == "All"
    {
      products, cart, filter := initial, [], "All";
    }

    /** The products the shop grid shows. */
    function Visible(): seq<Product>
      reads this
    {
      ShopView(products, filter)
    }

    method AddToCart(p: Product)
      requires Valid()
      modifies this`cart
      ensures Valid()
      ensures cart == Catalogue.AddToCart(old(cart), p)
      ensures CartCount(cart) == old(CartCount(cart)) + 1
    {
      AddToCartWellFormed(cart, p);
      CartCountAddToCart(cart, p);
      cart := Catalogue.AddToCart(cart, p);
    }

    method UpdateProduct(u: Product)
      requires Valid()
      modifies this`products
      ensures Valid()
      ensures products == Catalogue.UpdateProduct(old(products), u)
    {
      products := Catalogue.UpdateProduct(products, u);
    }

    method DeleteProduct(id: string)
      requires Valid()
      modifies this`products
      ensures Valid()
      ensures products == Catalogue.DeleteProduct(old(products), id)
      ensures forall p :: p in products ==> p.id != id
    {
      products := Catalogue.DeleteProduct(products, id);
    }

    method SetFilter(f: string)
      requires Valid()
      modifies this`filter
      ensures Valid()
      ensures filter == f
      ensures Visible() == ShopView(products, f)
    {
      filter := f;
    }
  }

  /** The admin panel: which product is being edited and the form's contents.
      `onUpdate` is the shop's `UpdateProduct`. */
  class AdminDashboard {
    const shop: Shop
    var editingId: Option<string>
    var formData: Option<Product>

    constructor (shop: Shop)
      ensures this.shop == shop && editingId == None && formData == None
    {
      this.shop := shop;
      editingId, formData := None, None;
    }

    method StartEdit(p: Product)
      modifies this`editingId, this`formData
      ensures editingId == Some(p.id) && formData == Some(p)
    {
      editingId, formData := Some(p.id), Some(p);
    }

    /** One input's change handler. */
    method Edit(e: FormEdit)
      modifies this`formData
      ensures formData == ApplyEdit(old(formData), e)
    {
      formData := ApplyEdit(formData, e);
    }

    /** The cancel button and the backdrop: close the form, keep its data. */
    method Cancel()
      modifies this`editingId
      ensures editingId == None
    {
      editingId := None;
    }

    /** Commit the form to the catalogue only when it holds a non-empty id. */
    method HandleSave()
      requires shop.Valid()
      modifies this`editingId, shop`products
      ensures shop.Valid()
      ensures shop.products == Save(formData, old(shop.products))
      ensures editingId == if Commits(formData) then None else old(editingId)
      ensures Commits(formData) ==> forall i :: 0 <= i < |shop.products| ==>
                (shop.products[i].id == formData.value.id ==> shop.products[i] == formData.value)
    {
      if formData.Some? && formData.value.id != "" {
        shop.UpdateProduct(formData.value);
        editingId := None;
      }
    }
  }
}
