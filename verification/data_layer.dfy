/**
 * `DataLayer` (rnn_core/src/data_layer.rs): converts data to bits and pushes
 * them into a shared network. The network's internals are not part of this
 * model; it is the append-only log of the bit vectors pushed into it.
 */
module DataLayers {
  import opened Wrappers

  /**
   * The network behind `Rc<RefCell<Network>>` (and `Arc<RwLock<Network>>`),
   * seen through `push_data_binary` and `get_layer_dimensions`.
   */
  class Network {
    const rowWidth: nat
    const columnHeight: nat
    var pushed: seq<seq<bool>>

    constructor(rowWidth: nat, columnHeight: nat)
      ensures this.rowWidth == rowWidth && this.columnHeight == columnHeight
      ensures pushed == []
    {
      this.rowWidth := rowWidth;
      this.columnHeight := columnHeight;
      pushed := [];
    }

    /** `get_layer_dimensions`: the width of a row and the height of a column. */
    function GetLayerDimensions(): (nat, nat)
    {
      (rowWidth, columnHeight)
    }

    /** `push_data_binary`: one more bit vector in the log. */
    method PushDataBinary(bits: seq<bool>)
      modifies this
      ensures pushed == old(pushed) + [bits]
    {
      pushed := pushed + [bits];
    }
  }

  datatype DataLayerParams<!T> = DataLayerParams(
    binaryToData: seq<bool> -> Result<T, ()>,
    dataToBinary: T -> Result<seq<bool>, ()>)

  class DataLayer<T> {
    const params: DataLayerParams<T>
    var network: Network

    /** `DataLayer::new`. */
    constructor(params: DataLayerParams<T>, network: Network)
      ensures this.params == params && this.network == network
    {
      this.params := params;
      this.network := network;
    }

    /** `get_network`: the network currently shared (`Rc::clone` is the same object). */
    function GetNetwork(): (n: Network)
      reads this
      ensures n == network
    {
      network
    }

    /** `replace_network`: only the network changes; the parameters are constant. */
    method ReplaceNetwork(network: Network)
      modifies this
      ensures this.network == network
      ensures GetNetwork() == network
    {
      this.network := network;
    }

    /** `push_data`: the bits of `data` are pushed once when converting succeeds, and nothing otherwise. */
    method PushData(data: T)
      modifies network
      ensures params.dataToBinary(data).Ok? ==> network.pushed == old(network.pushed) + [params.dataToBinary(data).value]
      ensures params.dataToBinary(data).Err? ==> network.pushed == old(network.pushed)
    {
      var bitVecResult := params.dataToBinary(data);
      if bitVecResult.Ok? {
        network.PushDataBinary(bitVecResult.value);
      }
    }
  }
}
