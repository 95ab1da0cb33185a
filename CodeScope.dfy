/**
  The code builder the generator writes into (`codegen::Scope`), kept as the
  ordered list of items it holds. Items are only ever appended; rendering them
  to text is not part of this model.
 */
module CodeScope {
  import opened Wrappers

  /**
    A function declaration: `selfRef` is the `&self` receiver, `params` the
    (name, type) pairs, `vis` the visibility if one was set, `attrs` the
    attributes, `lines` the body lines.
   */
  datatype Fn = Fn(
    name: string,
    selfRef: bool,
    params: seq<(string, string)>,
    vis: Option<string>,
    attrs: seq<string>,
    lines: seq<string>)

  datatype Item =
    | Import(path: string, symbol: string)
    | Raw(text: string)
    | Struct(name: string, vis: Option<string>, derives: seq<string>)
    | Impl(target: string, traitName: string, fns: seq<Fn>)
    | Function(f: Fn)

  class Scope {
    var items: seq<Item>

    constructor ()
      ensures items == []
    {
      items := [];
    }

    /** Appends one item; every builder call of the generator goes through here. */
    method Push(item: Item)
      modifies this
      ensures items == old(items) + [item]
    {
      items := items + [item];
    }
  }
}
